/** Starvation is bounded: how often a queued task can be passed over. */
module Overtaking {
  import opened Model
  import opened Machine
  import opened Invariant
  import opened Guarantees
  import opened Sums

  /** Some place still holds the right to run the task. */
  predicate Held(s: State, tid: TaskId)
    requires tid in s.tasks
  {
    s.tasks[tid].status == Queued || Owed(s, tid) == 1
  }

  /** How many times the task can still be taken off the queue. */
  function Budget(s: State, tid: TaskId): int {
    if tid !in s.tasks then 0 else
    var left := Limit(s.tasks[tid]) - s.tasks[tid].attempts;
    if Unstarted(s, tid) then left - 1 else if Held(s, tid) then left else 0
  }

  predicate Takes(step: Step, tid: TaskId) { step.Sched? && step.s.TakeTask? && step.s.tid == tid }

  lemma BudgetIsNat(s: State, tid: TaskId)
    requires Inv(s)
    ensures 0 <= Budget(s, tid)
  {
    if tid in s.tasks { assert TaskOk(s, tid); }
  }

  lemma SchedSpends(s: State, x: SchedStep, tid: TaskId)
    requires SchedEnabled(s, x) && SchedOk(s) && tid in s.tasks && TaskOk(s, tid)
    requires s.tasks[tid].sessionId.Some? && s.tasks[tid].sessionId.value in s.workers ==>
               WorkerOk(s, s.tasks[tid].sessionId.value)
    ensures Budget(SchedApply(s, x), tid) + (if Takes(Sched(x), tid) then 1 else 0) <= Budget(s, tid)
  {
    if OnlySched(x) { MoveSpends(s, x, tid); }
  }

  lemma MoveSpends(s: State, x: SchedStep, tid: TaskId)
    requires OnlySched(x)
    requires SchedEnabled(s, x) && SchedOk(s) && tid in s.tasks && TaskOk(s, tid)
    requires s.tasks[tid].sessionId.Some? && s.tasks[tid].sessionId.value in s.workers ==>
               WorkerOk(s, s.tasks[tid].sessionId.value)
    ensures Budget(SchedApply(s, x), tid) + (if Takes(Sched(x), tid) then 1 else 0) <= Budget(s, tid)
  {}


  lemma ReadSpends(s: State, w: SessionId, x: ReadStep, tid: TaskId)
    requires ReadEnabled(s, w, x) && WorkerOk(s, w) && tid in s.tasks && TaskOk(s, tid)
    ensures Budget(ReadApply(s, w, x), tid) <= Budget(s, tid)
  {
    if x.Finalize? { VerdictSpends(s, w, x.code, tid); }
    else if OnEvent(x) { EventSpends(s, w, x, tid); }
    else if OnOutcome(x) { OutcomeSpends(s, w, x, tid); }
  }

  lemma OutcomeSpends(s: State, w: SessionId, x: ReadStep, tid: TaskId)
    requires OnOutcome(x)
    requires ReadEnabled(s, w, x) && WorkerOk(s, w) && tid in s.tasks && TaskOk(s, tid)
    ensures Budget(ReadApply(s, w, x), tid) <= Budget(s, tid)
  {}

  lemma EventSpends(s: State, w: SessionId, x: ReadStep, tid: TaskId)
    requires OnEvent(x)
    requires ReadEnabled(s, w, x) && WorkerOk(s, w) && tid in s.tasks && TaskOk(s, tid)
    ensures Budget(ReadApply(s, w, x), tid) <= Budget(s, tid)
  {}

  lemma VerdictSpends(s: State, w: SessionId, code: Option<int>, tid: TaskId)
    requires ReadEnabled(s, w, Finalize(code)) && tid in s.tasks && TaskOk(s, tid)
    ensures Budget(ReadApply(s, w, Finalize(code)), tid) <= Budget(s, tid)
  {}

  lemma CmdSpends(s: State, c: Command, tid: TaskId)
    requires CmdEnabled(s, c) && Fresh(s, Cmd(c)) && tid in s.tasks && TaskOk(s, tid)
    ensures Budget(CmdApply(s, c), tid) <= Budget(s, tid)
  {
    if c.Remove? { RemoveSpends(s, c.sid, tid); }
    else if c.Enqueue? || c.CancelTask? || c.FailRemoved? { EditSpends(s, c, tid); }
  }

  lemma EditSpends(s: State, c: Command, tid: TaskId)
    requires c.Enqueue? || c.CancelTask? || c.FailRemoved?
    requires CmdEnabled(s, c) && Fresh(s, Cmd(c)) && tid in s.tasks && TaskOk(s, tid)
    ensures Budget(CmdApply(s, c), tid) <= Budget(s, tid)
  {}

  lemma RemoveSpends(s: State, sid: SessionId, tid: TaskId)
    requires tid in s.tasks && TaskOk(s, tid)
    ensures Budget(CmdApply(s, Remove(sid)), tid) <= Budget(s, tid)
  {}

  /** No step raises a task's budget, and taking the task spends one. */
  lemma {:induction false} StepSpends(s: State, step: Step, tid: TaskId)
    requires Inv(s) && Enabled(s, step) && Fresh(s, step) && tid in s.tasks
    ensures Budget(Apply(s, step), tid) + (if Takes(step, tid) then 1 else 0) <= Budget(s, tid)
  {
    assert TaskOk(s, tid);
    match step
    case Sched(x) => SchedSpends(s, x, tid);
    case Read(w, x) => ReadSpends(s, w, x, tid);
    case Cmd(c) => CmdSpends(s, c, tid);
  }

  /** The tasks that may be served before `u`. */
  function Rivals(s: State, u: TaskId): set<TaskId>
    requires u in s.tasks
  {
    set t | t in s.tasks && t != u && RanksAtLeast(s.tasks[t], s.tasks[u])
  }

  function TakeCount(run: seq<Step>): nat
    decreases |run|
  {
    if run == [] then 0 else (if run[0].Sched? && run[0].s.TakeTask? then 1 else 0) + TakeCount(run[1..])
  }

  /** `u` is queued before every step and at the end, and nothing is enqueued. */
  predicate StaysQueued(s: State, run: seq<Step>, u: TaskId)
    requires Legal(s, run)
    decreases |run|
  {
    && u in s.tasks && s.tasks[u].status == Queued
    && (run != [] ==>
          && !(run[0].Cmd? && run[0].c.Enqueue?)
          && StaysQueued(Apply(s, run[0]), run[1..], u))
  }

  ghost function Budgets(s: State, ts: set<TaskId>): map<TaskId, nat>
    requires Inv(s)
  {
    map t | t in ts :: BudgetIsNat(s, t); Budget(s, t)
  }

  predicate SameRank(t: Task, t': Task) {
    t'.priority == t.priority && t'.createdAt == t.createdAt && t'.maxAttempts == t.maxAttempts
  }

  lemma WriteFixesRank(tasks: map<TaskId, Task>, w: Write, tid: TaskId)
    requires tid in tasks && !(w.Insert? && w.task.id == tid)
    ensures tid in WriteTo(tasks, w) && SameRank(tasks[tid], WriteTo(tasks, w)[tid])
  {}

  /** The rank of a task and the identity of its rivals never change. */
  lemma RankIsFixed(s: State, step: Step, tid: TaskId)
    requires Enabled(s, step) && Fresh(s, step) && tid in s.tasks
    ensures tid in Apply(s, step).tasks && SameRank(s.tasks[tid], Apply(s, step).tasks[tid])
  {
    ApplyWrites(s, step);
    WriteFixesRank(s.tasks, WriteOf(s, step), tid);
  }

  lemma RivalsAreFixed(s: State, step: Step, u: TaskId)
    requires Enabled(s, step) && Fresh(s, step) && u in s.tasks && !(step.Cmd? && step.c.Enqueue?)
    ensures u in Apply(s, step).tasks && Rivals(Apply(s, step), u) == Rivals(s, u)
  {
    var s' := Apply(s, step);
    ApplyWrites(s, step);
    assert s'.tasks.Keys == s.tasks.Keys;
    RankIsFixed(s, step, u);
    forall t | t in s.tasks ensures t in Rivals(s', u) <==> t in Rivals(s, u) { RankIsFixed(s, step, t); }
  }

  /** A step spends one of the attempts left to any set of tasks that has the one it takes. */
  lemma StepSpendsAll(s: State, step: Step, ts: set<TaskId>)
    requires Inv(s) && Enabled(s, step) && Fresh(s, step) && Inv(Apply(s, step)) && ts <= s.tasks.Keys
    requires step.Sched? && step.s.TakeTask? ==> step.s.tid in ts
    ensures TakeCount([step]) + Total(Budgets(Apply(s, step), ts)) <= Total(Budgets(s, ts))
  {
    var s' := Apply(s, step);
    var a, b := Budgets(s', ts), Budgets(s, ts);
    forall t | t in ts ensures a[t] + (if Takes(step, t) then 1 else 0) <= b[t] { StepSpends(s, step, t); }
    if step.Sched? && step.s.TakeTask? {
      TotalDrops(a, b, step.s.tid);
    } else {
      TotalOrdered(a, b);
    }
  }

  lemma {:induction false} RunSpends(s: State, run: seq<Step>, u: TaskId)
    requires Inv(s) && Proper(s, run) && Legal(s, run) && StaysQueued(s, run, u)
    ensures TakeCount(run) <= Total(Budgets(s, Rivals(s, u)))
    decreases |run|
  {
    if run != [] {
      var s' := Apply(s, run[0]);
      StepKeepsInv(s, run[0]);
      RivalsAreFixed(s, run[0], u);
      TakenIsRival(s, run[0], u);
      StepSpendsAll(s, run[0], Rivals(s, u));
      RunSpends(s', run[1..], u);
    }
  }

  /** What is taken past a task that stays queued ranks at or above it. */
  lemma TakenIsRival(s: State, step: Step, u: TaskId)
    requires Enabled(s, step) && u in s.tasks && s.tasks[u].status == Queued
    requires u in Apply(s, step).tasks && Apply(s, step).tasks[u].status == Queued
    ensures step.Sched? && step.s.TakeTask? ==> step.s.tid in Rivals(s, u)
  {
    if step.Sched? && step.s.TakeTask? { assert step.s.tid != u; }
  }

  function Remaining(t: Task): nat { if t.attempts <= Limit(t) then Limit(t) - t.attempts else 0 }

  ghost function Remainders(s: State, ts: set<TaskId>): map<TaskId, nat>
    requires ts <= s.tasks.Keys
  {
    map t | t in ts :: Remaining(s.tasks[t])
  }

  lemma BudgetsWithinRemainders(s: State, ts: set<TaskId>)
    requires Inv(s) && ts <= s.tasks.Keys
    ensures Total(Budgets(s, ts)) <= Total(Remainders(s, ts))
  {
    var a, b := Budgets(s, ts), Remainders(s, ts);
    forall t | t in a ensures a[t] <= b[t] { assert TaskOk(s, t); }
    TotalOrdered(a, b);
  }

  /** From any reachable state, as long as `u` stays queued and nothing is enqueued, the scheduler
      takes at most `max(1, max_attempts) - attempts` tasks, summed over the tasks ranking at or
      above `u`. */
  lemma BoundedOvertaking(s: State, run: seq<Step>, u: TaskId)
    requires Reachable(s) && Proper(s, run) && Legal(s, run) && StaysQueued(s, run, u)
    ensures TakeCount(run) <= Total(Remainders(s, Rivals(s, u)))
  {
    ReachableInv(s);
    RunSpends(s, run, u);
    BudgetsWithinRemainders(s, Rivals(s, u));
  }

  // ----- the scheduler's work ends -----

  predicate NoEnqueues(run: seq<Step>) { forall i :: 0 <= i < |run| ==> !(run[i].Cmd? && run[i].c.Enqueue?) }

  lemma NoEnqueuesInTail(run: seq<Step>)
    requires run != [] && NoEnqueues(run)
    ensures NoEnqueues(run[1..])
  {
    forall i | 0 <= i < |run| - 1 ensures !(run[1..][i].Cmd? && run[1..][i].c.Enqueue?) {
      assert run[1..][i] == run[i + 1];
    }
  }

  lemma SameTasks(s: State, step: Step)
    requires Enabled(s, step) && !(step.Cmd? && step.c.Enqueue?)
    ensures Apply(s, step).tasks.Keys == s.tasks.Keys
    ensures step.Sched? && step.s.TakeTask? ==> step.s.tid in s.tasks
  {
    ApplyWrites(s, step);
  }

  lemma {:induction false} RunSpendsAll(s: State, run: seq<Step>, ts: set<TaskId>)
    requires Inv(s) && Proper(s, run) && NoEnqueues(run) && ts == s.tasks.Keys
    ensures TakeCount(run) <= Total(Budgets(s, ts))
    decreases |run|
  {
    if run != [] {
      StepKeepsInv(s, run[0]);
      SameTasks(s, run[0]);
      StepSpendsAll(s, run[0], ts);
      NoEnqueuesInTail(run);
      RunSpendsAll(Apply(s, run[0]), run[1..], ts);
    }
  }

  /** Nothing is retried for ever: from any reachable state, in any run without enqueues, however its
      sessions crash, end or are removed, the scheduler takes at most as many tasks as the tasks there
      have attempts left in sum. */
  lemma TakesAreBounded(s: State, run: seq<Step>)
    requires Reachable(s) && Proper(s, run) && NoEnqueues(run)
    ensures TakeCount(run) <= Total(Remainders(s, s.tasks.Keys))
  {
    ReachableInv(s);
    RunSpendsAll(s, run, s.tasks.Keys);
    BudgetsWithinRemainders(s, s.tasks.Keys);
  }

  // ----- what is over stays over -----

  predicate Concerns(step: Step, tid: TaskId) {
    step.Sched? && ((step.s.TakeTask? && step.s.tid == tid) || (step.s.BindTask? && step.s.tid == tid))
  }

  lemma {:induction false} SpentIsNeverTaken(s: State, run: seq<Step>, tid: TaskId)
    requires Inv(s) && Proper(s, run) && tid in s.tasks && Budget(s, tid) == 0 && !InHands(s, tid)
    ensures forall i :: 0 <= i < |run| ==> !Concerns(run[i], tid)
    decreases |run|
  {
    if run != [] {
      var s' := Apply(s, run[0]);
      StepKeepsInv(s, run[0]);
      StepSpends(s, run[0], tid);
      BudgetIsNat(s', tid);
      RankIsFixed(s, run[0], tid);
      NotTakenUp(s, run[0], tid);
      SpentIsNeverTaken(s', run[1..], tid);
      forall i | 0 <= i < |run| ensures !Concerns(run[i], tid) {
        if i > 0 { assert run[i] == run[1..][i - 1]; }
      }
    }
  }

  lemma NotTakenUp(s: State, step: Step, tid: TaskId)
    requires Enabled(s, step) && !InHands(s, tid) && !Takes(step, tid)
    ensures !InHands(Apply(s, step), tid) && !Concerns(step, tid)
  {
    match step
    case Sched(_) =>
    case Read(w, x) => ReadKeepsScheduler(s, w, x);
    case Cmd(c) => assert CmdApply(s, c).sched == s.sched;
  }

  lemma ReadKeepsScheduler(s: State, w: SessionId, x: ReadStep)
    requires ReadEnabled(s, w, x)
    ensures ReadApply(s, w, x).sched == s.sched
  {}

  /** A task that no place holds is never taken or started again, whatever runs on. */
  lemma OverIsOver(s: State, run: seq<Step>, tid: TaskId)
    requires Inv(s) && Proper(s, run) && tid in s.tasks && Places(s, tid) == {}
    ensures forall i :: 0 <= i < |run| ==> !Concerns(run[i], tid)
  {
    PlacesAreHolds(s, tid, InQueue);
    PlacesAreHolds(s, tid, AtScheduler);
    if s.tasks[tid].sessionId.Some? {
      var w := s.tasks[tid].sessionId.value;
      PlacesAreHolds(s, tid, AtWorker(w));
      PlacesAreHolds(s, tid, AtCompletion(w));
      PlacesAreHolds(s, tid, AtRecovery(w));
    }
    SpentIsNeverTaken(s, run, tid);
  }

  /** A queued task that is canceled is out of the queue, with the time, and no continuation of the run ever
      takes or starts it. */
  lemma CanceledIsOver(s: State, tid: TaskId, now: int, run: seq<Step>)
    requires Reachable(s) && tid in s.tasks && s.tasks[tid].status == Queued
    requires Proper(Apply(s, Cmd(CancelTask(tid, now))), run)
    ensures var s' := Apply(s, Cmd(CancelTask(tid, now)));
            && tid in s'.tasks && s'.tasks[tid].status == Canceled && s'.tasks[tid].finishedAt == Some(now)
            && Places(s', tid) == {}
    ensures forall i :: 0 <= i < |run| ==> !Concerns(run[i], tid)
  {
    var s' := Apply(s, Cmd(CancelTask(tid, now)));
    ReachableInv(s);
    StepKeepsInv(s, Cmd(CancelTask(tid, now)));
    forall p ensures p !in Places(s', tid) {
      PlacesAreHolds(s', tid, p);
      if Holds(s', tid, p) && p != InQueue {
        assert Holds(s, tid, p);
        HeldOnce(s, tid, p, InQueue);
      }
    }
    OverIsOver(s', run, tid);
  }
}
