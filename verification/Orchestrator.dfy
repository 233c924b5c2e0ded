/** The orchestrator core as one object, every operation run to its end.  Beside its own contract each
    method keeps `Valid`: the object's state is one the interleaved machine reaches, the database
    agrees with memory, and the attach list agrees with the sessions' flags. */
module Orchestrator {
  import opened Model
  import opened Machine
  import opened Invariant
  import opened Storage
  import Guarantees
  import AttachLru
  import opened Ring
  import opened Sequences
  import opened Sums
  import Json
  import StreamJson

  // ----- what the scheduler promises about the queue -----

  function Queue(tasks: map<TaskId, Task>): set<TaskId> { set t | t in tasks && tasks[t].status == Queued }

  /** The worker runs this task in its own context: headless, in the task's directory, on the task's model,
      and new or, before, idle and free. */
  predicate RunsOn(t: Task, was: map<SessionId, Session>, sessions: map<SessionId, Session>, w: SessionId) {
    && w in sessions
    && sessions[w].mode == Headless && sessions[w].cwd == t.cwd && sessions[w].specModel == t.model
    && sessions[w].current == Some(t.id) && sessions[w].status == Busy
    && (w in was ==>
          && was[w].mode == Headless && was[w].status == Idle && was[w].current == None
          && was[w].cwd == t.cwd && was[w].specModel == t.model)
  }

  /** What becomes of a task that was taken: it runs, or it has failed, but not if all went well. */
  predicate Placed(before: Task, after: Task, was: map<SessionId, Session>, sessions: map<SessionId, Session>,
                   well: bool) {
    && after == before.(status := after.status, sessionId := after.sessionId, attempts := after.attempts,
                        startedAt := after.startedAt, finishedAt := after.finishedAt, error := after.error)
    && ((after.status == Failed && !well)
        || (after.status == Running && after.attempts == before.attempts + 1
            && after.sessionId.Some? && RunsOn(before, was, sessions, after.sessionId.value)))
  }

  ghost predicate OnlyHandled(was: map<TaskId, Task>, tasks: map<TaskId, Task>,
                              sWas: map<SessionId, Session>, sessions: map<SessionId, Session>, well: bool) {
    && tasks.Keys == was.Keys
    && forall t {:trigger Handled(was, tasks, sWas, sessions, well, t)} :: t in was ==>
         Handled(was, tasks, sWas, sessions, well, t)
  }

  predicate Handled(was: map<TaskId, Task>, tasks: map<TaskId, Task>,
                    sWas: map<SessionId, Session>, sessions: map<SessionId, Session>, well: bool, t: TaskId) {
    && t in was && t in tasks
    && (tasks[t] == was[t] || (was[t].status == Queued && Placed(was[t], tasks[t], sWas, sessions, well)))
  }

  /** No task still queued outranks one that was taken. */
  ghost predicate NoInversion(was: map<TaskId, Task>, tasks: map<TaskId, Task>) {
    forall t, q {:trigger RanksAtLeast(was[t], was[q])} ::
      t in was && t in tasks && q in was && q in tasks && tasks[t] != was[t] && tasks[q].status == Queued ==>
      RanksAtLeast(was[t], was[q])
  }

  /** Only sessions without a task are given one, and only they change, in task and status. */
  ghost predicate Keeps(was: map<SessionId, Session>, sessions: map<SessionId, Session>) {
    forall w {:trigger Kept(was, sessions, w)} :: Kept(was, sessions, w)
  }

  predicate Kept(was: map<SessionId, Session>, sessions: map<SessionId, Session>, w: SessionId) {
    && (w in was ==>
          && w in sessions
          && sessions[w] == was[w].(current := sessions[w].current, status := sessions[w].status)
          && (was[w].current.Some? ==> sessions[w] == was[w]))
    && (w in sessions && sessions[w].current == None ==> w in was && sessions[w] == was[w])
  }

  /** The list `list_tasks` returns: all tasks, in queue order. */
  ghost predicate IsListing(tasks: map<TaskId, Task>, v: seq<Task>) {
    && (forall i :: 0 <= i < |v| ==> v[i].id in tasks && tasks[v[i].id] == v[i])
    && (forall i, j :: 0 <= i < j < |v| ==> v[i].id != v[j].id && ListOrder(v[i], v[j]) <= 0)
    && (forall t :: t in tasks ==> tasks[t] in v)
  }

  /** What the scheduler takes next ties with the first queued entry of the list the user sees. */
  lemma NextTiesWithList(tasks: map<TaskId, Task>, v: seq<Task>, tid: TaskId, i: nat)
    requires IsListing(tasks, v) && IsNext(tasks, tid)
    requires i < |v| && v[i].status == Queued && forall j :: 0 <= j < i ==> v[j].status != Queued
    ensures v[i].priority == tasks[tid].priority && v[i].createdAt == tasks[tid].createdAt
  {
    assert RanksAtLeast(tasks[tid], v[i]);
    var k :| 0 <= k < |v| && v[k] == tasks[tid];
    assert k >= i;
    OrdersAgree(v[i], v[k]);
  }

  /** The list has no duplicates, at most 16 entries, and the registered sessions in it are the attached ones. */
  ghost predicate AttachOk(lru: seq<SessionId>, sessions: map<SessionId, Session>) {
    && AttachLru.NoDup(lru) && |lru| <= 16
    && forall w {:trigger w in sessions} :: w in sessions ==> (sessions[w].attached <==> w in lru)
  }

  /** The scrollback of a session, as `Ring.RingBuffer` keeps it; `fed` records all its output. */
  datatype Scrollback = Scrollback(cap: nat, bytes: seq<byte>, fed: seq<byte>) {
    predicate Kept() { bytes == LastN(fed, cap) && cap >= MIN_CAPACITY }
  }

  function NewRing(config: Config): Scrollback {
    Scrollback(if config.ringBytes < MIN_CAPACITY then MIN_CAPACITY else config.ringBytes, [], [])
  }

  /** What the interface is sent for a terminal. */
  datatype Frame = Frame(sid: SessionId, data: seq<byte>, replay: bool)

  /** How the world takes part in placing one task: the clock, and what fails. */
  datatype Outcome = Outcome(start: int, spawnError: Option<string>, writeError: Option<string>, end: int)

  predicate Well(o: Outcome) { o.spawnError.None? && o.writeError.None? }

  ghost predicate AllWell(world: nat -> Outcome) { forall i: nat :: Well(world(i)) }

  /** Ids handed out are below `issued`, and every session has its ring. */
  ghost predicate IdsOk(sessions: map<SessionId, Session>, workers: map<SessionId, Worker>,
                        rings: map<SessionId, Scrollback>, issued: nat) {
    && (forall w {:trigger w in workers} :: w in workers ==> w < issued)
    && (forall w {:trigger w in rings} :: w in rings ==> rings[w].Kept())
    && forall w {:trigger w in sessions} :: w in sessions ==> w < issued && w in rings
  }

  class Core {
    var config: Config
    var sessions: map<SessionId, Session>
    var tasks: map<TaskId, Task>
    var rows: Rows                      // the `tasks` table of the database
    var attachLru: seq<SessionId>
    var issued: nat                     // every session id handed out is below this
    var workers: map<SessionId, Worker> // child processes with their stop cells, and their readers' places
    var rings: map<SessionId, Scrollback>
    var shown: seq<Frame>               // everything emitted for terminals
    ghost var sched: Scheduler
    ghost var fails: multiset<TaskId>
    ghost var marks: multiset<SessionId>

    ghost function Now(): State
      reads this
    {
      State(tasks, sessions, workers, sched, fails, marks)
    }

    ghost predicate Solid()
      reads this
    {
      && Reachable(Now())
      && Persisted(tasks, rows)
      && IdsOk(sessions, workers, rings, issued)
    }

    ghost predicate Valid()
      reads this
    {
      Solid() && AttachOk(attachLru, sessions)
    }

    constructor (config: Config)
      ensures Valid() && this.config == config && sched == Resting
      ensures tasks == map[] && sessions == map[] && attachLru == []
    {
      this.config := config;
      sessions, tasks, rows, attachLru, issued := map[], map[], map[], [], 0;
      rings, shown := map[], [];
      workers, sched, fails, marks := map[], Resting, multiset{}, multiset{};
      new;
      ReachableInit();
      assert Now() == INIT;
    }

    // ----- the task table -----

    /** Applies one change to a task and, where the code does, writes its row. */
    method Save(tid: TaskId, m: Move)
      requires Persisted(tasks, rows)
      requires m.Take? && tid in tasks ==> tasks[tid].status == Queued
      modifies this`tasks, this`rows
      ensures tasks == MoveIn(old(tasks), tid, m)
      ensures rows == RowsAfter(old(tasks), old(rows), Edit(tid, m))
      ensures Persisted(tasks, rows)
    {
      WriteKeepsPersisted(tasks, rows, Edit(tid, m));
      if tid in tasks {
        var t := Moved(tasks[tid], m);
        if !m.Take? && (m.Cancel? ==> tasks[tid].status == Queued) { rows := Upsert(rows, t); }
        tasks := tasks[tid := t];
      }
    }

    /** A new id, as a random UUID is: unused by any session and not in the attach list. */
    method NewId() returns (sid: SessionId)
      ensures sid >= issued && sid !in attachLru
    {
      sid := issued;
      for i := 0 to |attachLru|
        invariant sid >= issued && forall j :: 0 <= j < i ==> attachLru[j] < sid
      {
        if attachLru[i] >= sid { sid := attachLru[i] + 1; }
      }
    }

    method EnqueueTask(task: Task, now: int)
      requires Valid()
      modifies this`tasks, this`rows
      ensures old(task.id !in tasks && task.id !in rows) && task.attempts == 0 ==> Valid()
      ensures tasks == old(tasks)[task.id := task.(status := Queued, createdAt := now)]
      ensures rows == Upsert(old(rows), task.(status := Queued, createdAt := now))
      ensures rows[task.id] == tasks[task.id] <==>
                (task.id !in old(rows) || SameFixedColumns(old(rows)[task.id], tasks[task.id]))
    {
      if task.id !in tasks && task.id !in rows && task.attempts == 0 {
        ReachableStep(Now(), Cmd(Enqueue(task, now)));
        WriteKeepsPersisted(tasks, rows, Insert(task, now));
      }
      var t := Enqueued(task, now);
      UpsertStoresIff(rows, t);
      tasks := tasks[task.id := t];
      rows := Upsert(rows, t);
    }

    method CancelTask(tid: TaskId, now: int)
      requires Valid()
      modifies this`tasks, this`rows
      ensures Valid()
      ensures tid in old(tasks) && old(tasks)[tid].status == Queued ==>
                && tasks == old(tasks)[tid := old(tasks)[tid].(status := Canceled, finishedAt := Some(now))]
                && rows == old(rows)[tid := tasks[tid]]
      ensures !(tid in old(tasks) && old(tasks)[tid].status == Queued) ==> tasks == old(tasks) && rows == old(rows)
    {
      ReachableStep(Now(), Cmd(Command.CancelTask(tid, now)));
      if tid in tasks && tasks[tid].status == Queued { RowFollows(tid, Cancel(now)); }
      Save(tid, Cancel(now));
    }

    /** The row of a task that is neither taken nor new follows it to the letter. */
    lemma RowFollows(tid: TaskId, m: Move)
      requires Valid() && tid in tasks && !m.Take?
      ensures Upsert(rows, Moved(tasks[tid], m)) == rows[tid := Moved(tasks[tid], m)]
    {
      assert RowAgrees(tasks, rows, tid);
      MovesKeepFixedColumns(tasks[tid], m);
      UpsertStoresIff(rows, Moved(tasks[tid], m));
    }

    // ----- the scheduler's pieces -----

    method CountActiveHeadless() returns (n: nat)
      ensures n == |ActiveHeadless(sessions)|
      ensures n == |set w | w in sessions && sessions[w].mode == Headless
                            && sessions[w].status in {Starting, Idle, Busy}|
    {
      n := 0;
      var left := sessions.Keys;
      ghost var seen: set<SessionId> := {};
      ghost var active := ActiveHeadless(sessions);
      while left != {}
        invariant left !! seen && left + seen == sessions.Keys
        invariant n == |active * seen|
      {
        var w :| w in left;
        CountOneMore(active, seen, w);
        if sessions[w].mode == Headless && sessions[w].status.IsActive() { n := n + 1; }
        left, seen := left - {w}, seen + {w};
      }
      assert active * seen == active;
      ActiveSpelled(sessions);
    }

    /** Scans the table for the best queued task. */
    method BestQueued() returns (best: Option<TaskId>)
      ensures best.None? ==> forall q :: q in tasks ==> tasks[q].status != Queued
      ensures best.Some? ==> IsNext(tasks, best.value)
      ensures best.Some? ==> forall q :: q in tasks && tasks[q].status == Queued ==>
                tasks[q].priority < tasks[best.value].priority
                || (tasks[q].priority == tasks[best.value].priority
                    && tasks[best.value].createdAt <= tasks[q].createdAt)
    {
      best := None;
      var left := tasks.Keys;
      while left != {}
        invariant left <= tasks.Keys
        invariant best.None? ==> forall q :: q in tasks && q !in left ==> tasks[q].status != Queued
        invariant best.Some? ==>
                    && best.value in tasks && tasks[best.value].status == Queued
                    && forall q :: q in tasks && q !in left && tasks[q].status == Queued ==>
                         RanksAtLeast(tasks[best.value], tasks[q])
      {
        var t :| t in left;
        if best.Some? { OrdersAgree(tasks[t], tasks[best.value]); }
        if tasks[t].status == Queued && (best.None? || TakeOrder(tasks[t], tasks[best.value]) >= 0) {
          best := Some(t);
        }
        left := left - {t};
      }
    }

    /** Pops a queued task nothing queued outranks, marking it assigned. */
    method TakeNextTask() returns (r: Option<Task>)
      requires Valid() && sched == Admitting
      modifies this`tasks, this`rows, this`sched
      ensures Valid() && rows == old(rows)
      ensures r.None? ==> Queue(tasks) == {} && tasks == old(tasks) && sched == Resting
      ensures r.Some? ==>
                var tid := r.value.id;
                && IsNext(old(tasks), tid) && r.value == old(tasks)[tid].(status := Assigned)
                && tasks == old(tasks)[tid := r.value] && sched == Took(tid)
    {
      var best := BestQueued();
      if best.None? {
        ReachableStep(Now(), Sched(TakeNone));
        sched := Resting;
        return None;
      }
      var tid := best.value;
      assert RowAgrees(tasks, rows, tid);
      ReachableStep(Now(), Sched(TakeTask(tid)));
      Save(tid, Take);
      sched := Took(tid);
      r := Some(tasks[tid]);
    }

    /** An idle pooled worker in the task's directory and model, if there is one. */
    method FindIdleSession(task: Task) returns (r: Option<SessionId>)
      ensures r.Some? ==>
                && r.value in sessions && sessions[r.value].mode == Headless && sessions[r.value].status == Idle
                && sessions[r.value].current == None
                && sessions[r.value].cwd == task.cwd && sessions[r.value].specModel == task.model
      ensures r.None? ==> forall w :: w in sessions ==>
                !(sessions[w].mode == Headless && sessions[w].status == Idle && sessions[w].current == None
                  && sessions[w].cwd == task.cwd && sessions[w].specModel == task.model)
    {
      var left := sessions.Keys;
      while left != {}
        invariant left <= sessions.Keys
        invariant forall w :: w in sessions && w !in left ==>
                    !(sessions[w].mode == Headless && sessions[w].status == Idle && sessions[w].current == None
                      && sessions[w].cwd == task.cwd && sessions[w].specModel == task.model)
      {
        var w :| w in left;
        var i := sessions[w];
        if i.mode == Headless && i.status == Idle && i.current == None && i.cwd == task.cwd
           && i.specModel == task.model {
          return Some(w);
        }
        left := left - {w};
      }
      r := None;
    }

    /** First half of an assignment: the task names its session. */
    method StartTask(sid: SessionId, tid: TaskId, now: int)
      requires Valid() && sched == Chosen(tid, sid)
      modifies this`tasks, this`rows, this`workers, this`sched
      ensures Valid() && sched == HalfBound(tid, sid) && SameReaders(old(workers), workers)
      ensures tasks == MoveIn(old(tasks), tid, Start(sid, now))
    {
      ReachesStarted(Now(), sid, tid, now);
      Save(tid, Start(sid, now));
      workers := StartedLast(workers, sid, tid);
      sched := HalfBound(tid, sid);
    }

    /** Second half: the session, if it is still there, names its task. */
    method HoldTask(sid: SessionId, tid: TaskId)
      requires Valid() && sched == HalfBound(tid, sid)
      modifies this`sessions, this`sched
      ensures Valid() && sched == Sending(tid, sid)
      ensures sessions == if sid in old(sessions)
                          then old(sessions)[sid := old(sessions)[sid].(current := Some(tid))] else old(sessions)
    {
      ReachableStep(Now(), Sched(BindSession));
      if sid in sessions { sessions := sessions[sid := sessions[sid].(current := Some(tid))]; }
      sched := Sending(tid, sid);
    }

    /** Writes the prompt; the write fails with the given error, if any. */
    method SendPrompt(sid: SessionId, tid: TaskId, writeError: Option<string>) returns (error: Option<string>)
      requires Valid() && sched == Sending(tid, sid)
      modifies this`sessions, this`workers, this`sched
      ensures Valid() && SameReaders(old(workers), workers)
      ensures error == if sid !in old(sessions) then Some(SendError("unknown session"))
                       else if writeError.Some? then Some(SendError(writeError.value)) else None
      ensures error.Some? ==> sessions == old(sessions) && sched == Failing(tid, error.value)
      ensures error.None? ==> sessions == WithStatus(old(sessions), sid, Busy) && sched == Resting
    {
      ReachesLookup(Now(), sid, tid);
      if sid !in sessions {
        error := Some(SendError("unknown session"));
        sched := Failing(tid, error.value);
        return;
      }
      sched := Writing(tid, sid);
      if writeError.Some? {
        error := Some(SendError(writeError.value));
        WriteFailed(sid, tid, writeError.value);
        return;
      }
      PromptWritten(sid, tid);
      error := None;
    }

    method WriteFailed(sid: SessionId, tid: TaskId, reason: string)
      requires Valid() && sched == Writing(tid, sid)
      modifies this`sched
      ensures Valid() && sched == Failing(tid, SendError(reason))
    {
      ReachableStep(Now(), Sched(WriteFails(reason)));
      sched := Failing(tid, SendError(reason));
    }

    /** The prompt is in the worker's pipe; the worker is busy. */
    method PromptWritten(sid: SessionId, tid: TaskId)
      requires Valid() && sched == Writing(tid, sid)
      modifies this`sessions, this`workers, this`sched
      ensures Valid() && sched == Resting && sessions == WithStatus(old(sessions), sid, Busy)
      ensures workers == Asked(old(workers), sid, ForTask(tid))
    {
      ReachesSent(Now(), sid, tid);
      FlagsWithStatus(attachLru, sessions, sid, Busy);
      workers := Asked(workers, sid, ForTask(tid));
      sessions := WithStatus(sessions, sid, Busy);
      sched := Resting;
    }

    method FailTask(tid: TaskId, err: string, now: int)
      requires Valid() && sched == Failing(tid, err)
      modifies this`tasks, this`rows, this`sched
      ensures Valid() && sched == Resting
      ensures tasks == MoveIn(old(tasks), tid, Fail(err, now))
    {
      ReachableStep(Now(), Sched(SchedStep.FailTask(now)));
      Save(tid, Fail(err, now));
      sched := Resting;
    }

    /** Sends the prompt of a bound task, failing the task if that does not work. */
    method StartTurn(sid: SessionId, tid: TaskId, writeError: Option<string>, end: int) returns (error: Option<string>)
      requires Valid() && sched == Sending(tid, sid) && tid in tasks
      modifies this`tasks, this`rows, this`sessions, this`workers, this`sched
      ensures Valid() && sched == Resting && SameReaders(old(workers), workers)
      ensures error == if sid !in old(sessions) then Some(SendError("unknown session"))
                       else if writeError.Some? then Some(SendError(writeError.value)) else None
      ensures sessions == if error.None? then WithStatus(old(sessions), sid, Busy) else old(sessions)
      ensures tasks == if error.None? then old(tasks) else MoveIn(old(tasks), tid, Fail(error.value, end))
    {
      error := SendPrompt(sid, tid, writeError);
      if error.Some? { FailTask(tid, error.value, end); }
    }

    /** Binds a task to a session and starts its turn. */
    method AssignTaskToSession(sid: SessionId, task: Task, now: int, writeError: Option<string>, end: int)
      returns (error: Option<string>)
      requires Valid() && sched == Chosen(task.id, sid) && task.id in tasks
      modifies this`tasks, this`rows, this`sessions, this`workers, this`sched
      ensures Valid() && sched == Resting && SameReaders(old(workers), workers)
      ensures error == if sid !in old(sessions) then Some(SendError("unknown session"))
                       else if writeError.Some? then Some(SendError(writeError.value)) else None
      ensures sid !in old(sessions) ==> sessions == old(sessions)
      ensures sid in old(sessions) ==>
                sessions == old(sessions)[sid := old(sessions)[sid].(
                              current := Some(task.id),
                              status := if error.None? then Busy else old(sessions)[sid].status)]
      ensures old(tasks)[task.id].attempts < 0xFFFF_FFFF
      ensures tasks == old(tasks)[task.id :=
                if error.None? then old(tasks)[task.id].(
                  status := Running, sessionId := Some(sid), startedAt := Some(now),
                  attempts := old(tasks)[task.id].attempts + 1)
                else old(tasks)[task.id].(
                  status := Failed, sessionId := Some(sid), startedAt := Some(now),
                  attempts := old(tasks)[task.id].attempts + 1, finishedAt := Some(end), error := error)]
    {
      ghost var tasks0, sessions0, workers0 := tasks, sessions, workers;
      AttemptsLeft(Now(), sid, task.id);
      Bind(sid, task.id, now);
      ghost var workers1 := workers;
      error := StartTurn(sid, task.id, writeError, end);
      ReadersCompose(workers0, workers1, workers);
      AssignedTask(tasks0, sid, task.id, now, error, end);
      AssignedSessions(sessions0, sessions, sid, task.id, error.None?);
    }

    /** Both halves of the binding. */
    method Bind(sid: SessionId, tid: TaskId, now: int)
      requires Valid() && sched == Chosen(tid, sid)
      modifies this`tasks, this`rows, this`sessions, this`workers, this`sched
      ensures Valid() && sched == Sending(tid, sid) && SameReaders(old(workers), workers)
      ensures tasks == MoveIn(old(tasks), tid, Start(sid, now))
      ensures sessions == if sid in old(sessions)
                          then old(sessions)[sid := old(sessions)[sid].(current := Some(tid))] else old(sessions)
    {
      StartTask(sid, tid, now);
      HoldTask(sid, tid);
    }

    /** Starts a new headless worker for the task's context, unless its process does not start. */
    method SpawnHeadless(task: Task, spawnError: Option<string>) returns (sid: Option<SessionId>, error: string)
      requires Valid() && sched == Took(task.id) && task.id in tasks && tasks[task.id] == task
      modifies this`sessions, this`workers, this`sched, this`issued, this`rings
      ensures Valid() && SameReaders(old(workers), workers) && (sid.Some? <==> spawnError.None?)
      ensures sid.None? ==> error == SpawnError(spawnError.value)
      ensures sid.None? ==> sessions == old(sessions) && sched == Failing(task.id, error)
      ensures sid.Some? ==>
                && sid.value !in old(sessions) && sched == Chosen(task.id, sid.value)
                && sessions == old(sessions)[sid.value :=
                     Session(Headless, Starting, task.cwd, task.model, TokenUsage(0, 0, 0, 0), None, false)]
    {
      if spawnError.Some? {
        error := SpawnFailed(task.id, spawnError.value);
        return None, error;
      }
      var id := SpawnWorker(task);
      return Some(id), "";
    }

    method SpawnFailed(tid: TaskId, reason: string) returns (error: string)
      requires Valid() && sched == Took(tid)
      modifies this`sched
      ensures Valid() && error == SpawnError(reason) && sched == Failing(tid, error)
    {
      ReachableStep(Now(), Sched(SpawnFails(reason)));
      error := SpawnError(reason);
      sched := Failing(tid, error);
    }

    method SpawnWorker(task: Task) returns (id: SessionId)
      requires Valid() && sched == Took(task.id) && task.id in tasks && tasks[task.id] == task
      modifies this`sessions, this`workers, this`sched, this`issued, this`rings
      ensures Valid() && SameReaders(old(workers), workers) && id !in old(sessions) && sched == Chosen(task.id, id)
      ensures sessions == old(sessions)[id :=
                Session(Headless, Starting, task.cwd, task.model, TokenUsage(0, 0, 0, 0), None, false)]
    {
      id := NewId();
      var i := Session(Headless, Starting, task.cwd, task.model, TokenUsage(0, 0, 0, 0), None, false);
      assert i == Spawned(Headless, task.cwd, task.model);
      IdsWithNew(sessions, workers, rings, issued, id, i, NewRing(config));
      ReachesNewWorker(Now(), id);
      FlagsWithNew(attachLru, sessions, id, i);
      NewIsSameReaders(workers, id);
      sessions := sessions[id := i];
      workers := workers[id := NEW_WORKER];
      rings := rings[id := NewRing(config)];
      sched := Chosen(task.id, id);
      issued := id + 1;
    }

    /** Places a taken task on a new worker, or fails it. */
    method PlaceOnNewWorker(task: Task, o: Outcome)
      requires Valid() && sched == Took(task.id) && task.id in tasks && tasks[task.id] == task
      modifies this`tasks, this`rows, this`sessions, this`workers, this`sched, this`issued, this`rings
      ensures Valid() && sched == Resting && SameReaders(old(workers), workers)
      ensures Others(old(tasks), tasks, task.id)
      ensures Placed(task, tasks[task.id], old(sessions), sessions, Well(o))
      ensures tasks[task.id].status == Running <==> Well(o)
      ensures Keeps(old(sessions), sessions) && Grows(old(sessions), sessions)
    {
      var sid, error := SpawnHeadless(task, o.spawnError);
      if sid.Some? {
        AssignToNewWorker(old(sessions), old(workers), sid.value, task, o);
      } else {
        FailTask(task.id, error, o.end);
        KeepsAll(sessions);
      }
    }

    method AssignToNewWorker(ghost was: map<SessionId, Session>, ghost workersWas: map<SessionId, Worker>,
                             sid: SessionId, task: Task, o: Outcome)
      requires Valid() && sched == Chosen(task.id, sid) && task.id in tasks && tasks[task.id] == task
      requires sid !in was && sessions == was[sid :=
                 Session(Headless, Starting, task.cwd, task.model, TokenUsage(0, 0, 0, 0), None, false)]
      requires SameReaders(workersWas, workers)
      modifies this`tasks, this`rows, this`sessions, this`workers, this`sched
      ensures Valid() && sched == Resting && SameReaders(workersWas, workers)
      ensures Others(old(tasks), tasks, task.id)
      ensures Placed(task, tasks[task.id], was, sessions, o.writeError.None?)
      ensures tasks[task.id].status == Running <==> o.writeError.None?
      ensures Keeps(was, sessions) && Grows(was, sessions)
    {
      ghost var spawned, withNew := sessions, workers;
      var error := AssignTaskToSession(sid, task, o.start, o.writeError, o.end);
      ReadersCompose(workersWas, withNew, workers);
      AssignedIsPlaced(task, tasks[task.id], was, spawned, sessions, sid, error, o);
      OthersKept(old(tasks), task.id, tasks[task.id]);
      NewWorkerKeeps(was, spawned, sessions, sid, task);
    }

    /** Places a taken task: on an idle pooled worker if one matches, else on a new one, else nowhere.
        Reusing a worker starts no process and leaves the active count as it is. */
    method PlaceTask(task: Task, o: Outcome) returns (reused: bool)
      requires Valid() && sched == Took(task.id) && task.id in tasks && tasks[task.id] == task
      modifies this`tasks, this`rows, this`sessions, this`workers, this`sched, this`issued, this`rings
      ensures Valid() && sched == Resting && SameReaders(old(workers), workers)
      ensures Others(old(tasks), tasks, task.id)
      ensures Placed(task, tasks[task.id], old(sessions), sessions, Well(o))
      ensures tasks[task.id].status == Running <==> o.writeError.None? && (reused || o.spawnError.None?)
      ensures Keeps(old(sessions), sessions) && Grows(old(sessions), sessions)
      ensures reused <==> config.sessionPooling && exists w ::
                && w in old(sessions) && old(sessions)[w].mode == Headless && old(sessions)[w].status == Idle
                && old(sessions)[w].current == None
                && old(sessions)[w].cwd == task.cwd && old(sessions)[w].specModel == task.model
      ensures reused ==> ActiveHeadless(sessions) == ActiveHeadless(old(sessions))
                         && sessions.Keys == old(sessions).Keys
    {
      if config.sessionPooling {
        var found := FindIdleSession(task);
        if found.Some? {
          Reuse(found.value, task, o);
          return true;
        }
      }
      PlaceOnNewWorker(task, o);
      reused := false;
    }

    method Reuse(sid: SessionId, task: Task, o: Outcome)
      requires Valid() && sched == Took(task.id) && task.id in tasks && tasks[task.id] == task
      requires sid in sessions && sessions[sid].mode == Headless && sessions[sid].status == Idle
      requires sessions[sid].current == None && sessions[sid].cwd == task.cwd && sessions[sid].specModel == task.model
      modifies this`tasks, this`rows, this`sessions, this`workers, this`sched
      ensures Valid() && sched == Resting && SameReaders(old(workers), workers)
      ensures Others(old(tasks), tasks, task.id)
      ensures Placed(task, tasks[task.id], old(sessions), sessions, o.writeError.None?)
      ensures tasks[task.id].status == Running <==> o.writeError.None?
      ensures Keeps(old(sessions), sessions) && sessions.Keys == old(sessions).Keys
      ensures ActiveHeadless(sessions) == ActiveHeadless(old(sessions))
    {
      ghost var before := sessions;
      ReachesFound(Now(), sid);
      sched := Chosen(task.id, sid);
      var error := AssignTaskToSession(sid, task, o.start, o.writeError, o.end);
      OthersKept(old(tasks), task.id, tasks[task.id]);
      ReusedIsPlaced(task, tasks[task.id], before, sessions, sid, error, o);
    }

    /** One turn of the loop past the cap check: takes a task and places it, if there is one. */
    method AdmitOne(o: Outcome) returns (tid: Option<TaskId>)
      requires Valid() && sched == Admitting
      modifies this`tasks, this`rows, this`sessions, this`workers, this`sched, this`issued, this`rings
      ensures Valid() && sched == Resting && SameReaders(old(workers), workers)
      ensures tid.None? ==> Queue(tasks) == {} && tasks == old(tasks) && sessions == old(sessions)
      ensures tid.Some? ==>
                && IsNext(old(tasks), tid.value) && Others(old(tasks), tasks, tid.value)
                && Placed(old(tasks)[tid.value], tasks[tid.value], old(sessions), sessions, Well(o))
                && Keeps(old(sessions), sessions) && Grows(old(sessions), sessions)
    {
      ghost var before := tasks;
      var task := TakeNextTask();
      if task.None? { return None; }
      ghost var taken, sessionsWas := tasks, sessions;
      tid := Some(task.value.id);
      var reused := PlaceTask(task.value, o);
      TakenIsPlaced(before, taken, tasks, task.value.id, sessionsWas, sessions, Well(o));
    }

    method PassCapCheck()
      requires Valid() && sched == Resting && |ActiveHeadless(sessions)| < config.maxConcurrent
      modifies this`sched
      ensures Valid() && sched == Admitting
    {
      ReachableStep(Now(), Sched(Admit(config.maxConcurrent)));
      sched := Admitting;
    }

    lemma IdsAreKeys()
      requires Valid()
      ensures forall t :: t in tasks ==> tasks[t].id == t
    {
      forall t | t in tasks ensures tasks[t].id == t { IdsMatch(t); }
    }

    lemma IdsMatch(tid: TaskId)
      requires Valid()
      ensures tid in tasks ==> tasks[tid].id == tid
    {
      assert RowAgrees(tasks, rows, tid);
    }

    /** One tick: nothing while the machine is saturated, else the admission loop.  `world` says how the
        loop's turns go. */
    method Tick(throttled: bool, world: nat -> Outcome)
      requires Valid() && sched == Resting
      modifies this`tasks, this`rows, this`sessions, this`workers, this`sched, this`issued, this`rings
      ensures Valid() && sched == Resting && SameReaders(old(workers), workers)
      ensures throttled ==> tasks == old(tasks) && sessions == old(sessions)
      ensures OnlyHandled(old(tasks), tasks, old(sessions), sessions, AllWell(world))
      ensures Keeps(old(sessions), sessions) && NoInversion(old(tasks), tasks)
      ensures forall t :: t in tasks ==> tasks[t].status != Assigned
      ensures !throttled ==> Queue(tasks) == {} || |ActiveHeadless(sessions)| >= config.maxConcurrent
      ensures |ActiveHeadless(sessions)| <= config.maxConcurrent
              || |ActiveHeadless(sessions)| <= |ActiveHeadless(old(sessions))|
    {
      if !throttled { AdmitTasks(world); } else { KeepsAll(sessions); }
      NothingAssigned();
    }

    /** The admission loop.  It ends because every turn takes a task off the queue. */
    method AdmitTasks(world: nat -> Outcome)
      requires Valid() && sched == Resting
      modifies this`tasks, this`rows, this`sessions, this`workers, this`sched, this`issued, this`rings
      ensures Valid() && sched == Resting && SameReaders(old(workers), workers)
      ensures OnlyHandled(old(tasks), tasks, old(sessions), sessions, AllWell(world))
      ensures Keeps(old(sessions), sessions) && NoInversion(old(tasks), tasks)
      ensures Queue(tasks) == {} || |ActiveHeadless(sessions)| >= config.maxConcurrent
      ensures |ActiveHeadless(sessions)| <= config.maxConcurrent
              || |ActiveHeadless(sessions)| <= |ActiveHeadless(old(sessions))|
    {
      IdsAreKeys();
      KeepsAll(sessions);
      ghost var tasks0, sessions0 := tasks, sessions;
      var turn := 0;
      while true
        invariant Valid() && sched == Resting && SameReaders(old(workers), workers)
        invariant Ticked(tasks0, tasks, sessions0, sessions, AllWell(world))
        invariant |ActiveHeadless(sessions)| <= config.maxConcurrent
                  || |ActiveHeadless(sessions)| <= |ActiveHeadless(sessions0)|
        decreases Queue(tasks)
      {
        var n := CountActiveHeadless();
        if n >= config.maxConcurrent { break; }
        ghost var tasks1, sessions1, workers1 := tasks, sessions, workers;
        var tid := AdmitTurn(world(turn));
        ReadersCompose(old(workers), workers1, workers);
        if tid.None? { break; }
        AfterTurn(tasks0, tasks1, tasks, sessions0, sessions1, sessions, tid.value, AllWell(world), Well(world(turn)));
        turn := turn + 1;
      }
    }

    /** One turn below the cap. */
    method AdmitTurn(o: Outcome) returns (tid: Option<TaskId>)
      requires Valid() && sched == Resting && |ActiveHeadless(sessions)| < config.maxConcurrent
      modifies this`tasks, this`rows, this`sessions, this`workers, this`sched, this`issued, this`rings
      ensures Valid() && sched == Resting && SameReaders(old(workers), workers)
      ensures tid.None? ==> Queue(tasks) == {} && tasks == old(tasks) && sessions == old(sessions)
      ensures tid.Some? ==>
                && IsNext(old(tasks), tid.value) && Others(old(tasks), tasks, tid.value)
                && Placed(old(tasks)[tid.value], tasks[tid.value], old(sessions), sessions, Well(o))
                && Keeps(old(sessions), sessions)
      ensures |ActiveHeadless(sessions)| <= config.maxConcurrent
    {
      PassCapCheck();
      tid := AdmitOne(o);
    }

    // ----- what the reader threads call -----

    /** The loop of a headless worker's reader goes on to the next line, unless a stop is stored. */
    method NextLine(w: SessionId)
      requires Valid() && w in workers && workers[w].reader == Reading && !workers[w].stop
      modifies this`workers
      ensures Valid() && workers == old(workers)[w := old(workers)[w].(reader := Handling)]
    {
      ReachableStep(Now(), Read(w, ReadStep.NextLine));
      workers := workers[w := workers[w].(reader := Handling)];
    }

    /** The handshake: the working directory, and `Idle` after `Starting`. */
    method NoteInit(w: SessionId, cwd: Option<string>)
      requires Valid() && w in workers && workers[w].reader == Handling
      requires w in sessions ==> sessions[w].mode == Headless
      modifies this`sessions, this`workers
      ensures Valid() && workers == old(workers)[w := old(workers)[w].(reader := Reading)]
      ensures sessions == if w !in old(sessions) then old(sessions) else
                var i := old(sessions)[w];
                old(sessions)[w := i.(cwd := if cwd.Some? then cwd.value else i.cwd,
                                      status := if i.status == Starting then Idle else i.status)]
    {
      ReachableStep(Now(), Read(w, InitEvent(cwd)));
      if w in sessions {
        var i := sessions[w];
        sessions := sessions[w := i.(cwd := if cwd.Some? then cwd.value else i.cwd,
                                     status := if i.status == Starting then Idle else i.status)];
      }
      workers := workers[w := workers[w].(reader := Reading)];
    }

    method NoteAssistant(w: SessionId)
      requires Valid() && w in workers && workers[w].reader == Handling
      requires w in sessions ==> sessions[w].mode == Headless
      modifies this`sessions, this`workers
      ensures Valid() && workers == old(workers)[w := old(workers)[w].(reader := Reading)]
      ensures sessions == WithStatus(old(sessions), w, Busy)
    {
      ReachableStep(Now(), Read(w, AssistantEvent));
      sessions := WithStatus(sessions, w, Busy);
      workers := workers[w := workers[w].(reader := Reading)];
    }

    method IgnoreLine(w: SessionId)
      requires Valid() && w in workers && workers[w].reader == Handling
      modifies this`workers
      ensures Valid() && workers == old(workers)[w := old(workers)[w].(reader := Reading)]
    {
      ReachableStep(Now(), Read(w, ReadStep.IgnoreLine));
      workers := workers[w := workers[w].(reader := Reading)];
    }

    /** The first half of a `result` line: counters and status. */
    method NoteResult(w: SessionId, isError: bool, summary: string, usage: TokenUsage)
      requires Valid() && w in workers && workers[w].reader == Handling
      requires w in sessions ==> sessions[w].mode == Headless
      modifies this`sessions, this`workers
      ensures Valid() && workers == old(workers)[w := Answered(old(workers)[w], isError, summary)]
      ensures sessions == Noted(old(sessions), w, usage)
    {
      ReachableStep(Now(), Read(w, ResultEvent(isError, summary, usage)));
      if w in sessions {
        var i := sessions[w];
        sessions := sessions[w := i.(usage := AddUsage(i.usage, usage), status := Idle)];
      }
      workers := workers[w := Answered(workers[w], isError, summary)];
    }

    /** Takes the task off a session whose result arrived. */
    method TakeCurrentTask(w: SessionId, isError: bool, summary: string) returns (tid: Option<TaskId>)
      requires Valid() && w in workers && workers[w].reader.SawResult?
      requires workers[w].reader.isError == isError && workers[w].reader.summary == summary
      modifies this`sessions, this`workers
      ensures Valid()
      ensures tid == if w in old(sessions) then old(sessions)[w].current else None
      ensures workers == old(workers)[w := old(workers)[w].(
                           reader := if tid.Some? then Completing(tid.value, isError, summary) else Reading)]
      ensures sessions == if tid.Some? then old(sessions)[w := old(sessions)[w].(current := None)] else old(sessions)
    {
      ReachableStep(Now(), Read(w, TakeCurrent));
      tid := if w in sessions then sessions[w].current else None;
      if tid.Some? {
        sessions := sessions[w := sessions[w].(current := None)];
        workers := workers[w := workers[w].(reader := Completing(tid.value, isError, summary))];
      } else {
        workers := workers[w := workers[w].(reader := Reading)];
      }
    }

    method SettleTask(w: SessionId, tid: TaskId, isError: bool, summary: string, now: int)
      requires Valid() && w in workers && workers[w].reader == Completing(tid, isError, summary)
      modifies this`workers, this`tasks, this`rows
      ensures Valid() && workers == old(workers)[w := old(workers)[w].(reader := Reading)]
      ensures tasks == MoveIn(old(tasks), tid, Settle(isError, summary, now))
    {
      ReachableStep(Now(), Read(w, Complete(tid, now)));
      Save(tid, Settle(isError, summary, now));
      workers := workers[w := workers[w].(reader := Reading)];
    }

    /** Completes, or fails, the session's current task. */
    method OnTurnComplete(w: SessionId, isError: bool, summary: string, now: int)
      requires Valid() && w in workers && workers[w].reader.SawResult?
      requires workers[w].reader.isError == isError && workers[w].reader.summary == summary
      modifies this`sessions, this`workers, this`tasks, this`rows
      ensures Valid() && SameButTurns(old(workers), workers, w) && workers[w].reader == Reading
      ensures sessions == Released(old(sessions), w)
      ensures tasks == Settled(old(tasks), HeldBy(old(sessions), w), isError, summary, now)
    {
      ghost var was := workers;
      var tid := TakeCurrentTask(w, isError, summary);
      MovedIsSame(was, w, workers[w].reader);
      if tid.Some? {
        ghost var taken := workers;
        SettleTask(w, tid.value, isError, summary, now);
        MovedIsSame(taken, w, Reading);
        SameButTurnsCompose(was, taken, workers, w);
      }
    }

    /** Writes the verdict of an ended session; what is left to recover, if anything. */
    method WriteVerdict(w: SessionId, requested: bool, code: Option<int>) returns (crashed: Option<TaskId>)
      requires Valid() && w in workers && workers[w].reader == Reaping(requested)
      requires code.Some? ==> !workers[w].alive
      modifies this`sessions, this`workers
      ensures Valid() && w in workers
      ensures sessions == WithStatus(old(sessions), w, FinalStatus(requested, code))
      ensures if crashed.Some? then workers[w].reader == Recovering(crashed.value) else workers[w].reader.Finished?
      ensures crashed == if FinalStatus(requested, code) == Crashed then HeldBy(old(sessions), w) else None
    {
      crashed := None;
      if w in sessions { crashed := Judge(w, requested, code); }
      else {
        ReachableStep(Now(), Read(w, Finalize(code)));
        workers := workers[w := workers[w].(reader := Finished(None))];
      }
    }

    method Judge(w: SessionId, requested: bool, code: Option<int>) returns (crashed: Option<TaskId>)
      requires Valid() && w in workers && workers[w].reader == Reaping(requested) && w in sessions
      requires code.Some? ==> !workers[w].alive
      modifies this`sessions, this`workers
      ensures Valid() && w in workers
      ensures sessions == WithStatus(old(sessions), w, FinalStatus(requested, code))
      ensures if crashed.Some? then workers[w].reader == Recovering(crashed.value) else workers[w].reader.Finished?
      ensures crashed == if FinalStatus(requested, code) == Crashed then old(sessions)[w].current else None
    {
      ReachesVerdict(Now(), w, requested, code);
      crashed := None;
      var status := FinalStatus(requested, code);
      if status == Crashed { crashed := sessions[w].current; }
      sessions := sessions[w := sessions[w].(status := status)];
      workers := workers[w := workers[w].(reader := if crashed.Some? then Recovering(crashed.value)
                                                    else Finished(Some(status)))];
    }

    /** Requeues the interrupted task, or fails it, after the retry policy. */
    method RecoverTask(w: SessionId, tid: TaskId, now: int)
      requires Valid() && w in workers && workers[w].reader == Recovering(tid)
      modifies this`workers, this`tasks, this`rows
      ensures Valid() && w in workers && workers[w].reader.Finished?
      ensures tasks == MoveIn(old(tasks), tid, Recover(config.autoRestart, now))
    {
      ReachableStep(Now(), Read(w, ReadStep.RecoverTask(tid, config.autoRestart, now)));
      Save(tid, Recover(config.autoRestart, now));
      workers := workers[w := workers[w].(reader := Finished(Some(Crashed)))];
    }

    method OnResult(w: SessionId, isError: bool, summary: string, usage: TokenUsage, now: int)
      requires Valid() && w in workers && workers[w].reader == Handling
      requires w in sessions ==> sessions[w].mode == Headless
      modifies this`sessions, this`workers, this`tasks, this`rows
      ensures Valid() && SameButTurns(old(workers), workers, w) && workers[w].reader == Reading
      ensures sessions == Released(Noted(old(sessions), w, usage), w)
      ensures tasks == Settled(old(tasks), HeldBy(Noted(old(sessions), w, usage), w), isError, summary, now)
    {
      AnsweredIsSame(workers, w, isError, summary);
      NoteResult(w, isError, summary, usage);
      ghost var noted := workers;
      OnTurnComplete(w, isError, summary, now);
      SameButTurnsCompose(old(workers), noted, workers, w);
    }

    /** One event of a headless worker.  A result folds in its counters and settles the task held, once; the
        handshake and the agent's messages move directory and status; nothing else touches the session. */
    method OnHeadlessEvent(w: SessionId, e: StreamJson.Event, now: int)
      requires Valid() && w in workers && workers[w].reader == Handling
      requires w in sessions ==> sessions[w].mode == Headless
      modifies this`sessions, this`workers, this`tasks, this`rows
      ensures Valid() && SameButTurns(old(workers), workers, w) && workers[w].reader == Reading
      ensures w !in old(sessions) ==> sessions == old(sessions) && tasks == old(tasks)
      ensures w in old(sessions) ==> sessions == old(sessions)[w := Told(old(sessions)[w], e)]
      ensures tasks == TaskTold(old(tasks), HeldBy(old(sessions), w), e, now)
    {
      if e.Init? { NoteInit(w, e.cwd); }
      else if e.Assistant? { NoteAssistant(w); }
      else if e.Result? {
        ResultTold(sessions, tasks, w, e, now);
        OnResult(w, e.isError, if e.answer.Some? then e.answer.value else "(turn complete)", e.usage, now);
      }
      else { IgnoreLine(w); }
    }

    method OnParsed(w: SessionId, e: Option<StreamJson.Event>, now: int)
      requires Valid() && w in workers && workers[w].reader == Reading && !workers[w].stop
      requires w in sessions ==> sessions[w].mode == Headless
      modifies this`sessions, this`workers, this`tasks, this`rows
      ensures Valid() && SameButTurns(old(workers), workers, w) && workers[w].reader == Reading
      ensures w !in old(sessions) || e.None? ==> sessions == old(sessions) && tasks == old(tasks)
      ensures w in old(sessions) && e.Some? ==> sessions == old(sessions)[w := Told(old(sessions)[w], e.value)]
      ensures e.Some? ==> tasks == TaskTold(old(tasks), HeldBy(old(sessions), w), e.value, now)
    {
      MovedIsSame(workers, w, Handling);
      NextLine(w);
      ghost var handling := workers;
      if e.Some? { OnHeadlessEvent(w, e.value, now); } else { IgnoreLine(w); }
      SameButTurnsCompose(old(workers), handling, workers, w);
    }

    /** One line of output, parsed or not.  In particular the line a turn ends with settles the task held just
        as it says, with its own answer and counters. */
    method OnLine(w: SessionId, text: string, now: int)
      requires Valid() && w in workers && workers[w].reader == Reading && !workers[w].stop
      requires w in sessions ==> sessions[w].mode == Headless
      modifies this`sessions, this`workers, this`tasks, this`rows
      ensures Valid() && SameButTurns(old(workers), workers, w) && workers[w].reader == Reading
      ensures Heard(old(sessions), sessions, w, ReportOf(StreamJson.ParseLine(text), now))
      ensures tasks == SettledBy(old(tasks), HeldBy(old(sessions), w), ReportOf(StreamJson.ParseLine(text), now))
      ensures w in old(sessions) ==>
                forall failed, answer, usage, turns: nat ::
                  IsResultLine(text, failed, answer, usage, turns) ==>
                  && sessions == old(sessions)[w := old(sessions)[w].(
                                   usage := AddUsage(old(sessions)[w].usage, usage), status := Idle, current := None)]
                  && (old(sessions)[w].current.Some? && old(sessions)[w].current.value in old(tasks) ==>
                        var tid := old(sessions)[w].current.value;
                        tasks == old(tasks)[tid :=
                          if failed then old(tasks)[tid].(status := Failed, finishedAt := Some(now),
                                                          error := Some(Truncate(answer, 300)))
                          else old(tasks)[tid].(status := Done, finishedAt := Some(now),
                                                resultSummary := Some(Truncate(answer, 300)))])
    {
      var e := StreamJson.ReadLine(text);
      ToldIsHeard(sessions, tasks, w, e, now);
      if w in sessions { ResultLineTold(text, e, sessions[w], tasks, now); }
      OnParsed(w, e, now);
    }

    /** The loop ends: a stop is seen, the output is over, or it is not text. */
    method LeaveLoop(w: SessionId, why: Exit)
      requires Valid() && w in workers && workers[w].reader == Reading && (why.StopSeen? ==> workers[w].stop)
      modifies this`workers
      ensures Valid() && workers == old(workers)[w := old(workers)[w].(reader := Left)]
    {
      ReachableStep(Now(), Read(w, ReadStep.LeaveLoop(why)));
      workers := workers[w := workers[w].(reader := Left)];
    }

    /** The last look at the stop flag. */
    method LoadStop(w: SessionId) returns (requested: bool)
      requires Valid() && w in workers && workers[w].reader == Left
      modifies this`workers
      ensures Valid() && requested == old(workers)[w].stop
      ensures w in workers && workers[w].reader == Reaping(requested) && workers[w].alive == old(workers)[w].alive
    {
      ReachableStep(Now(), Read(w, ReadStep.LoadStop));
      var k := workers[w];
      requested := k.stop;
      workers := workers[w := k.(reader := Reaping(k.stop), letGo := k.alive && !k.stop)];
    }

    /** A child process ends. */
    method ProcessEnds(w: SessionId)
      requires Valid() && w in workers
      modifies this`workers
      ensures Valid() && workers == old(workers)[w := old(workers)[w].(alive := false)]
    {
      ReachableStep(Now(), Cmd(Die(w)));
      workers := workers[w := workers[w].(alive := false)];
    }

    /** Stores the stop flag, then kills the process, which need not take at once. */
    method Kill(sid: SessionId, dies: bool) returns (ok: bool)
      requires Valid()
      modifies this`workers
      ensures Valid() && (ok <==> sid in sessions)
      ensures !ok ==> workers == old(workers)
      ensures ok ==> sid in old(workers) && workers.Keys == old(workers).Keys
                     && workers[sid].stop && workers[sid].reader == old(workers)[sid].reader
                     && workers[sid].alive == (old(workers)[sid].alive && !dies)
                     && forall w :: w in workers && w != sid ==> workers[w] == old(workers)[w]
    {
      if sid !in sessions { return false; }
      ReachesStopped(Now(), sid);
      workers := StoreStop(workers, sid);
      if dies { ProcessEnds(sid); }
      ok := true;
    }

    /** The end of a session: its verdict, and crash recovery for its task. */
    method EndSession(w: SessionId, requested: bool, code: Option<int>, now: int)
      requires Valid() && w in workers && workers[w].reader == Reaping(requested)
      requires code.Some? ==> !workers[w].alive
      modifies this`sessions, this`workers, this`tasks, this`rows
      ensures Valid() && w in workers && workers[w].reader.Finished?
      ensures sessions == WithStatus(old(sessions), w, FinalStatus(requested, code))
      ensures tasks == Recovered(old(tasks), HeldBy(old(sessions), w), FinalStatus(requested, code),
                                 config.autoRestart, now)
      ensures w in old(sessions) ==>
                sessions == old(sessions)[w := old(sessions)[w].(
                              status := if requested then Stopped else if code == Some(0) then Completed else Crashed)]
      ensures requested || code == Some(0) || HeldBy(old(sessions), w).None? ==> tasks == old(tasks)
      ensures !requested && code != Some(0) && HeldBy(old(sessions), w).Some?
              && HeldBy(old(sessions), w).value in old(tasks) ==>
                var t := old(tasks)[HeldBy(old(sessions), w).value];
                tasks == old(tasks)[HeldBy(old(sessions), w).value :=
                  if config.autoRestart && t.attempts < t.maxAttempts
                  then t.(status := Queued, sessionId := None, startedAt := None)
                  else t.(status := Failed, finishedAt := Some(now), error := Some("session crashed"))]
    {
      VerdictMeans(sessions, w, requested, code);
      EndMeans(tasks, HeldBy(sessions, w), requested, code, config.autoRestart, now);
      var crashed := WriteVerdict(w, requested, code);
      if crashed.Some? { RecoverTask(w, crashed.value, now); }
    }

    /** The reading loop: every line, unless a stop is stored. */
    method ReadLines(w: SessionId, lines: seq<Line>)
      requires Valid() && w in workers && workers[w].reader == Reading && !workers[w].stop
      requires w in sessions ==> sessions[w].mode == Headless
      modifies this`sessions, this`workers, this`tasks, this`rows
      ensures Valid() && SameButTurns(old(workers), workers, w) && workers[w].reader == Reading
      ensures Heard(old(sessions), sessions, w, Reports(lines))
      ensures tasks == SettledBy(old(tasks), HeldBy(old(sessions), w), Reports(lines))
    {
      for i := 0 to |lines|
        invariant Valid() && SameButTurns(old(workers), workers, w) && workers[w].reader == Reading
        invariant Heard(old(sessions), sessions, w, Reports(lines[..i]))
        invariant tasks == SettledBy(old(tasks), HeldBy(old(sessions), w), Reports(lines[..i]))
      {
        OnNextLine(w, lines, i, old(sessions), old(tasks), old(workers));
      }
      assert lines[..|lines|] == lines;
    }

    /** Line `i`, after the lines before it led from the given registry, table and workers to here. */
    method OnNextLine(w: SessionId, lines: seq<Line>, i: nat, ghost sessions0: map<SessionId, Session>,
                      ghost tasks0: map<TaskId, Task>, ghost workers0: map<SessionId, Worker>)
      requires i < |lines| && w in workers0 && !workers0[w].stop
      requires Valid() && SameButTurns(workers0, workers, w) && workers[w].reader == Reading
      requires w in sessions0 ==> sessions0[w].mode == Headless
      requires Heard(sessions0, sessions, w, Reports(lines[..i]))
      requires tasks == SettledBy(tasks0, HeldBy(sessions0, w), Reports(lines[..i]))
      modifies this`sessions, this`workers, this`tasks, this`rows
      ensures Valid() && SameButTurns(workers0, workers, w) && workers[w].reader == Reading
      ensures Heard(sessions0, sessions, w, Reports(lines[..i + 1]))
      ensures tasks == SettledBy(tasks0, HeldBy(sessions0, w), Reports(lines[..i + 1]))
    {
      ghost var before, workersBefore := sessions, workers;
      OnLine(w, lines[i].text, lines[i].at);
      SameButTurnsCompose(workers0, workersBefore, workers, w);
      OneMoreHeard(sessions0, before, sessions, tasks0, w, lines, i);
    }

    /** What follows the loop: the last look at the flag, the wait for the process, the verdict. */
    method LeaveAndFinalize(w: SessionId, why: Exit, code: Option<int>, now: int)
      requires Valid() && w in workers && workers[w].reader == Reading && (why.StopSeen? ==> workers[w].stop)
      modifies this`sessions, this`workers, this`tasks, this`rows
      ensures Valid() && w in workers && workers[w].reader.Finished?
      ensures sessions == WithStatus(old(sessions), w, FinalStatus(old(workers)[w].stop, code))
      ensures tasks == Recovered(old(tasks), HeldBy(old(sessions), w), FinalStatus(old(workers)[w].stop, code),
                                 config.autoRestart, now)
    {
      LeaveLoop(w, why);
      if code.Some? { ProcessEnds(w); }
      var requested := LoadStop(w);
      EndSession(w, requested, code, now);
    }

    /** A headless worker's reader thread from start to end: the worker's output as lines, how the output
        ends, the exit code, if the process has exited by the time it is reaped, and the clock then. */
    method RunHeadlessStdout(w: SessionId, lines: seq<Line>, why: Exit, code: Option<int>, end: int)
      requires Valid() && w in workers && workers[w].reader == Reading
      requires w in sessions ==> sessions[w].mode == Headless
      requires why.StopSeen? ==> workers[w].stop
      modifies this`sessions, this`workers, this`tasks, this`rows
      ensures Valid() && w in workers && workers[w].reader.Finished?
      ensures var reports := if old(workers)[w].stop then [] else Reports(lines);
              var verdict := FinalStatus(old(workers)[w].stop, code);
              && Heard(old(sessions), sessions, w, reports)
              && (w in sessions ==> sessions[w].status == verdict)
              && tasks == LeftBehind(old(tasks), HeldBy(old(sessions), w), reports, verdict, config.autoRestart, end)
      ensures w in old(sessions) && old(sessions)[w].current.Some? && old(sessions)[w].current.value in old(tasks) ==>
                var reports := if old(workers)[w].stop then [] else Reports(lines);
                var tid, t := old(sessions)[w].current.value, old(tasks)[old(sessions)[w].current.value];
                tasks == old(tasks)[tid :=
                  if reports != [] && reports[0].isError then
                    t.(status := Failed, finishedAt := Some(reports[0].at),
                       error := Some(Truncate(reports[0].summary, 300)))
                  else if reports != [] then
                    t.(status := Done, finishedAt := Some(reports[0].at),
                       resultSummary := Some(Truncate(reports[0].summary, 300)))
                  else if old(workers)[w].stop || code == Some(0) then t
                  else if config.autoRestart && t.attempts < t.maxAttempts then
                    t.(status := Queued, sessionId := None, startedAt := None)
                  else t.(status := Failed, finishedAt := Some(end), error := Some("session crashed"))]
    {
      ghost var reports := if workers[w].stop then [] else Reports(lines);
      ghost var verdict := FinalStatus(workers[w].stop, code);
      if w in sessions {
        LeftBehindMeans(tasks, sessions[w].current, reports, workers[w].stop, code, config.autoRestart, end);
      }
      if !workers[w].stop { ReadLines(w, lines); }
      EndAfterLines(old(sessions), sessions, old(tasks), w, reports, verdict, config.autoRestart, end);
      LeaveAndFinalize(w, why, code, end);
    }

    // ----- commands on sessions -----

    /** Sends a turn to a headless worker; the write fails with the given error, if any. */
    method SendMessage(sid: SessionId, writeError: Option<string>) returns (ok: bool)
      requires Valid()
      modifies this`sessions, this`workers, this`marks
      ensures Valid() && marks == old(marks)
      ensures ok <==> sid in old(sessions) && old(sessions)[sid].mode == Headless && writeError.None?
      ensures workers == if ok then Asked(old(workers), sid, ByUser) else old(workers)
      ensures ok ==> sessions == old(sessions)[sid := old(sessions)[sid].(status := Busy)]
      ensures !ok ==> sessions == old(sessions)
    {
      if sid !in sessions || sessions[sid].mode != Headless || writeError.Some? { return false; }
      MessageWritten(sid);
      MarkBusy(sid);
      ok := true;
    }

    method MessageWritten(sid: SessionId)
      requires Valid() && sid in sessions && sessions[sid].mode == Headless
      modifies this`workers, this`marks
      ensures Valid() && workers == Asked(old(workers), sid, ByUser) && marks == old(marks) + multiset{sid}
    {
      ReachableInv(Now());
      ReachableStep(Now(), Cmd(WriteTurn(sid)));
      workers, marks := Asked(workers, sid, ByUser), marks + multiset{sid};
    }

    method MarkBusy(sid: SessionId)
      requires Valid() && sid in marks
      modifies this`sessions, this`marks
      ensures Valid() && sessions == WithStatus(old(sessions), sid, Busy) && marks == old(marks) - multiset{sid}
    {
      ReachesMarked(Now(), sid);
      FlagsWithStatus(attachLru, sessions, sid, Busy);
      sessions, marks := WithStatus(sessions, sid, Busy), marks - multiset{sid};
    }

    /** Registers a session the user opens. */
    method SpawnSession(mode: SessionMode, cwd: string, model: Option<string>) returns (sid: SessionId)
      requires Valid()
      modifies this`sessions, this`workers, this`issued, this`rings
      ensures Valid() && sid !in old(sessions) && sid !in old(workers)
      ensures sid in rings && rings == old(rings)[sid := rings[sid]] && rings[sid].bytes == [] == rings[sid].fed
      ensures rings[sid].cap >= 4096 && rings[sid].cap >= config.ringBytes && rings[sid].cap in {4096, config.ringBytes}
      ensures sessions == old(sessions)[sid :=
                Session(mode, if mode == Headless then Starting else Idle, cwd, model, TokenUsage(0, 0, 0, 0), None,
                        false)]
      ensures workers == old(workers)[sid := NEW_WORKER]
    {
      sid := NewId();
      IdsWithNew(sessions, workers, rings, issued, sid, Spawned(mode, cwd, model), NewRing(config));
      ReachesSpawned(Now(), sid, mode, cwd, model);
      FlagsWithNew(attachLru, sessions, sid, Spawned(mode, cwd, model));
      sessions := sessions[sid := Spawned(mode, cwd, model)];
      workers := workers[sid := NEW_WORKER];
      rings := rings[sid := NewRing(config)];
      issued := sid + 1;
    }

    /** Live edits of the policy leave everything else alone. */
    method SetConfig(cfg: Config)
      requires Valid()
      modifies this`config
      ensures Valid() && config == cfg
    {
      config := cfg;
    }

    method SetAttached(sid: SessionId, on: bool)
      requires Solid()
      modifies this`sessions
      ensures Solid() && sessions == WithFlag(old(sessions), sid, on)
    {
      ReachableStep(Now(), Cmd(Command.SetAttached(sid, on)));
      sessions := WithFlag(sessions, sid, on);
    }

    method Detach(sid: SessionId)
      requires Valid()
      modifies this`sessions, this`attachLru
      ensures Valid() && attachLru == AttachLru.Without(old(attachLru), sid)
      ensures Dropped(old(attachLru), attachLru, sid)
      ensures sessions == if sid in old(sessions)
                          then old(sessions)[sid := old(sessions)[sid].(attached := false)] else old(sessions)
    {
      WithoutOk(attachLru, sid);
      WithoutDrops(attachLru, sid);
      attachLru := AttachLru.Without(attachLru, sid);
      SetAttached(sid, false);
    }

    /** Turns the flag of every listed session off. */
    method DetachAll(sids: seq<SessionId>)
      requires Solid()
      modifies this`sessions
      ensures Solid() && FlagsCleared(old(sessions), sessions, sids)
    {
      for i := 0 to |sids|
        invariant Solid() && FlagsCleared(old(sessions), sessions, sids[..i])
      {
        ClearOneMore(old(sessions), sessions, sids, i);
        SetAttached(sids[i], false);
      }
      assert sids[..|sids|] == sids;
    }

    /** One chunk from a terminal: into the ring, and out to the interface while the pane is attached.  After
        a removal the flag keeps the value it had then, which is not known here. */
    method OnChunk(w: SessionId, data: seq<byte>)
      requires Valid() && w in workers && workers[w].reader == Reading && !workers[w].stop && w in rings
      modifies this`rings, this`shown
      ensures Valid() && rings == old(rings)[w := Fed(old(rings)[w], data)]
      ensures w in sessions ==>
                shown == old(shown) + if sessions[w].attached then [Frame(w, data, false)] else []
      ensures shown == old(shown) || shown == old(shown) + [Frame(w, data, false)]
    {
      FeedRing(w, data);
      EmitIfAttached(w, data);
    }

    method EmitIfAttached(w: SessionId, data: seq<byte>)
      requires Valid()
      modifies this`shown
      ensures Valid()
      ensures w in sessions ==>
                shown == old(shown) + if sessions[w].attached then [Frame(w, data, false)] else []
      ensures shown == old(shown) || shown == old(shown) + [Frame(w, data, false)]
    {
      var attached: bool := *;
      if w in sessions { attached := sessions[w].attached; }
      if attached { shown := shown + [Frame(w, data, false)]; }
    }

    method FeedRing(w: SessionId, data: seq<byte>)
      requires Valid() && w in rings
      modifies this`rings
      ensures Valid() && rings == old(rings)[w := Fed(old(rings)[w], data)]
    {
      IdsWithRing(sessions, workers, rings, issued, w, data);
      rings := rings[w := Fed(rings[w], data)];
    }

    /** Makes `sid` the most recent pane, evicting the oldest ones past the cap, and repaints it. */
    method Attach(sid: SessionId)
      requires Valid()
      modifies this`sessions, this`attachLru, this`shown
      ensures Valid()
      ensures sid in old(sessions) && old(sessions)[sid].mode in {Interactive, Shell} && rings[sid].fed != [] ==>
                var fed, cap := rings[sid].fed, rings[sid].cap;
                shown == old(shown) + [Frame(sid, if |fed| <= cap then fed else fed[|fed| - cap..], true)]
      ensures sid !in old(sessions) || old(sessions)[sid].mode == Headless || rings[sid].fed == [] ==>
                shown == old(shown)
      ensures attachLru == AttachLru.Touched(old(attachLru), sid, AttachLru.Clamp(config.maxAttached))
      ensures Dropped(old(attachLru), AttachLru.Without(old(attachLru), sid), sid)
      ensures 1 <= |attachLru| <= AttachLru.Clamp(config.maxAttached) && attachLru[|attachLru| - 1] == sid
      ensures SameButAttached(old(sessions), sessions)
    {
      RenewPanes(sid);
      Replay(sid);
    }

    method RenewPanes(sid: SessionId)
      requires Valid()
      modifies this`sessions, this`attachLru
      ensures Valid() && SameButAttached(old(sessions), sessions)
      ensures attachLru == AttachLru.Touched(old(attachLru), sid, AttachLru.Clamp(config.maxAttached))
      ensures Dropped(old(attachLru), AttachLru.Without(old(attachLru), sid), sid)
      ensures 1 <= |attachLru| <= AttachLru.Clamp(config.maxAttached) && attachLru[|attachLru| - 1] == sid
    {
      WithoutDrops(attachLru, sid);
      var evicted, lru := Renew(attachLru, sid, AttachLru.Clamp(config.maxAttached));
      MoveFlags(sid, evicted, lru);
      attachLru := lru;
    }

    /** Repaints a terminal with all its ring holds; a headless worker or an empty ring has nothing to show. */
    method Replay(sid: SessionId)
      requires Valid()
      modifies this`shown
      ensures Valid()
      ensures sid in sessions && sessions[sid].mode in {Interactive, Shell} && rings[sid].fed != [] ==>
                var fed, cap := rings[sid].fed, rings[sid].cap;
                shown == old(shown) + [Frame(sid, if |fed| <= cap then fed else fed[|fed| - cap..], true)]
      ensures sid !in sessions || sessions[sid].mode == Headless || rings[sid].fed == [] ==> shown == old(shown)
    {
      if sid in sessions && sessions[sid].mode != Headless {
        assert rings[sid].Kept();
        if rings[sid].bytes != [] { shown := shown + [Frame(sid, rings[sid].bytes, true)]; }
      }
    }

    method MoveFlags(sid: SessionId, evicted: seq<SessionId>, ghost lru: seq<SessionId>)
      requires Valid() && 1 <= |lru| <= 16 && evicted + lru == AttachLru.Without(attachLru, sid) + [sid]
      modifies this`sessions
      ensures Solid() && AttachOk(lru, sessions) && SameButAttached(old(sessions), sessions)
    {
      DetachAll(evicted);
      FlagsAfterAttach(attachLru, old(sessions), sessions, sid, evicted, lru);
      SetAttached(sid, true);
    }

    /** Takes a session out of the registry, storing its stop flag if it is not over. */
    method Unregister(sid: SessionId) returns (current: Option<TaskId>)
      requires Valid() && sid in sessions
      modifies this`sessions, this`workers, this`fails
      ensures Valid() && sessions == old(sessions) - {sid} && current == old(sessions)[sid].current
      ensures workers == StoppedBy(old(sessions), old(workers), sid)
      ensures fails == if current.Some? then old(fails) + multiset{current.value} else old(fails)
    {
      ReachesRemoved(Now(), sid);
      FlagsWithout(attachLru, sessions, sid);
      current := sessions[sid].current;
      workers := StoppedBy(sessions, workers, sid);
      sessions := sessions - {sid};
      fails := if current.Some? then fails + multiset{current.value} else fails;
    }

    method FailRemovedTask(tid: TaskId, now: int)
      requires Valid() && tid in fails
      modifies this`tasks, this`rows, this`fails
      ensures Valid() && fails == old(fails) - multiset{tid}
      ensures tasks == MoveIn(old(tasks), tid, Removal(now))
    {
      ReachesFailed(Now(), tid, now);
      Save(tid, Removal(now));
      fails := fails - multiset{tid};
    }

    method DropPane(sid: SessionId)
      requires Valid() && sid !in sessions
      modifies this`attachLru
      ensures Valid() && attachLru == AttachLru.Without(old(attachLru), sid)
    {
      WithoutOk(attachLru, sid);
      attachLru := AttachLru.Without(attachLru, sid);
    }

    /** Removes a session, storing its stop flag if it is not over, and fails the task it holds. */
    method RemoveSession(sid: SessionId, now: int)
      requires Valid()
      modifies this`sessions, this`workers, this`tasks, this`rows, this`fails, this`attachLru
      ensures Valid() && sessions == old(sessions) - {sid} && fails == old(fails)
      ensures workers.Keys == old(workers).Keys
      ensures forall w {:trigger workers[w]} :: w in workers && w != sid ==> workers[w] == old(workers)[w]
      ensures sid in old(sessions) && old(sessions)[sid].status in {Starting, Idle, Busy} ==>
                sid in workers && workers[sid].stop && workers[sid].reader == old(workers)[sid].reader
      ensures sid !in old(sessions) || old(sessions)[sid].status in {Completed, Crashed, Stopped} ==>
                workers == old(workers)
      ensures if sid in old(sessions) then Dropped(old(attachLru), attachLru, sid) else attachLru == old(attachLru)
      ensures sid in old(sessions) && old(sessions)[sid].current.Some?
              && old(sessions)[sid].current.value in old(tasks) ==>
                tasks == old(tasks)[old(sessions)[sid].current.value :=
                  old(tasks)[old(sessions)[sid].current.value].(
                    status := Failed, finishedAt := Some(now), error := Some("session removed"))]
      ensures sid !in old(sessions) || old(sessions)[sid].current.None? ==> tasks == old(tasks)
    {
      RegisteredWorks(sid);
      WithoutDrops(attachLru, sid);
      StoppedMeans(sessions, workers, sid);
      FailedMeans(sessions, tasks, sid, now);
      if sid in sessions { RemoveRegistered(sid, now); } else { assert sessions - {sid} == sessions; }
    }

    lemma RegisteredWorks(sid: SessionId)
      requires Valid()
      ensures sid in sessions ==> sid in workers
    {
      ReachableInv(Now());
    }

    method RemoveRegistered(sid: SessionId, now: int)
      requires Valid() && sid in sessions
      modifies this`sessions, this`workers, this`tasks, this`rows, this`fails, this`attachLru
      ensures Valid() && sessions == old(sessions) - {sid} && fails == old(fails)
      ensures workers == StoppedBy(old(sessions), old(workers), sid)
      ensures attachLru == AttachLru.Without(old(attachLru), sid)
      ensures tasks == FailedBy(old(tasks), old(sessions)[sid].current, now)
    {
      var current := Unregister(sid);
      DropPane(sid);
      FailLost(current, old(fails), now);
    }

    /** Pays the failure a removal owes, if it owes one. */
    method FailLost(lost: Option<TaskId>, ghost others: multiset<TaskId>, now: int)
      requires Valid() && fails == if lost.Some? then others + multiset{lost.value} else others
      modifies this`tasks, this`rows, this`fails
      ensures Valid() && fails == others && tasks == FailedBy(old(tasks), lost, now)
    {
      if lost.Some? {
        FailRemovedTask(lost.value, now);
        assert others + multiset{lost.value} - multiset{lost.value} == others;
      }
    }

    // ----- the list the user sees -----

    method ListTasks() returns (v: seq<Task>)
      requires Valid()
      ensures IsListing(tasks, v)
      ensures forall i, j :: 0 <= i < j < |v| ==>
                v[i].priority > v[j].priority || (v[i].priority == v[j].priority && v[i].createdAt <= v[j].createdAt)
    {
      v := [];
      var left := tasks.Keys;
      while left != {}
        invariant left <= tasks.Keys
        invariant forall x :: x in v ==> x.id in tasks && x.id !in left && tasks[x.id] == x
        invariant InOrder(v)
        invariant forall t :: t in tasks && t !in left ==> tasks[t] in v
      {
        var t :| t in left;
        IdsMatch(t);
        v := InsertTask(v, tasks[t]);
        left := left - {t};
      }
      forall i, j | 0 <= i < j < |v| ensures ListOrder(v[i], v[j]) <= 0 { OrdersAgree(v[i], v[j]); }
    }

    /** With the scheduler at rest no task is left assigned. */
    lemma NothingAssigned()
      requires Valid() && sched == Resting
      ensures forall t :: t in tasks ==> tasks[t].status != Assigned
    {
      forall t | t in tasks ensures tasks[t].status != Assigned { Guarantees.NothingDangles(Now(), t); }
    }
  }

  /** Removing a session that is not over stores its stop flag. */
  function StoppedBy(sessions: map<SessionId, Session>, workers: map<SessionId, Worker>, sid: SessionId)
    : (r: map<SessionId, Worker>)
    ensures r.Keys == workers.Keys
  {
    if sid in sessions && !sessions[sid].status.IsTerminal() then StoreStop(workers, sid) else workers
  }

  lemma ActiveSpelled(sessions: map<SessionId, Session>)
    ensures ActiveHeadless(sessions) ==
            set w | w in sessions && sessions[w].mode == Headless && sessions[w].status in {Starting, Idle, Busy}
  {}

  /** The ring after a chunk: the last bytes of what it held and the chunk. */
  function Fed(ring: Scrollback, data: seq<byte>): (r: Scrollback)
    ensures r.cap == ring.cap && r.fed == ring.fed + data && r.bytes == LastN(ring.bytes + data, ring.cap)
  {
    ring.(bytes := LastN(ring.bytes + data, ring.cap), fed := ring.fed + data)
  }

  lemma StoppedMeans(sessions: map<SessionId, Session>, workers: map<SessionId, Worker>, sid: SessionId)
    requires sid in sessions ==> sid in workers
    ensures var now := StoppedBy(sessions, workers, sid);
            && (forall w {:trigger now[w]} :: w in now && w != sid ==> now[w] == workers[w])
            && (sid in sessions && sessions[sid].status in {Starting, Idle, Busy} ==>
                  now[sid].stop && now[sid].reader == workers[sid].reader)
            && (sid !in sessions || sessions[sid].status in {Completed, Crashed, Stopped} ==> now == workers)
  {}

  lemma FailedMeans(sessions: map<SessionId, Session>, tasks: map<TaskId, Task>, sid: SessionId, now: int)
    ensures var after := FailedBy(tasks, HeldBy(sessions, sid), now);
            && (sid in sessions && sessions[sid].current.Some? && sessions[sid].current.value in tasks ==>
                  after == tasks[sessions[sid].current.value := tasks[sessions[sid].current.value].(
                             status := Failed, finishedAt := Some(now), error := Some("session removed"))])
            && (sid !in sessions || sessions[sid].current.None? ==> after == tasks)
  {}

  lemma IdsWithRing(sessions: map<SessionId, Session>, workers: map<SessionId, Worker>,
                    rings: map<SessionId, Scrollback>, issued: nat, w: SessionId, data: seq<byte>)
    requires IdsOk(sessions, workers, rings, issued) && w in rings
    ensures IdsOk(sessions, workers, rings[w := Fed(rings[w], data)], issued)
  {
    var ring := rings[w];
    LastNOfAppend(ring.fed, data, ring.cap);
    assert Fed(ring, data).Kept();
    var rings' := rings[w := Fed(ring, data)];
    assert forall v {:trigger v in rings'} :: v in rings' ==> v in rings;
  }

  lemma IdsWithNew(sessions: map<SessionId, Session>, workers: map<SessionId, Worker>,
                   rings: map<SessionId, Scrollback>, issued: nat, sid: SessionId, i: Session, ring: Scrollback)
    requires IdsOk(sessions, workers, rings, issued) && sid >= issued && ring.Kept()
    ensures sid !in sessions && sid !in workers
    ensures IdsOk(sessions[sid := i], workers[sid := NEW_WORKER], rings[sid := ring], sid + 1)
  {
    assert sid in sessions ==> sid < issued;
    assert sid in workers ==> sid < issued;
    var sessions', workers' := sessions[sid := i], workers[sid := NEW_WORKER];
    assert forall w {:trigger w in sessions'} :: w in sessions' ==> w == sid || w in sessions;
    assert forall w {:trigger w in workers'} :: w in workers' ==> w == sid || w in workers;
  }

  lemma FlagsWithNew(lru: seq<SessionId>, sessions: map<SessionId, Session>, sid: SessionId, i: Session)
    requires AttachOk(lru, sessions) && sid !in lru && !i.attached
    ensures AttachOk(lru, sessions[sid := i])
  {
    forall w | w in sessions[sid := i] ensures sessions[sid := i][w].attached <==> w in lru {
      assert w != sid ==> w in sessions;
    }
  }

  lemma FlagsWithout(lru: seq<SessionId>, sessions: map<SessionId, Session>, sid: SessionId)
    requires AttachOk(lru, sessions)
    ensures AttachOk(lru, sessions - {sid})
  {
    forall w | w in sessions - {sid} ensures sessions[w].attached <==> w in lru { assert w in sessions; }
  }

  lemma ReachesVerdict(s: State, w: SessionId, requested: bool, code: Option<int>)
    requires Reachable(s) && w in s.workers && s.workers[w].reader == Reaping(requested) && w in s.sessions
    requires code.Some? ==> !s.workers[w].alive
    ensures var status, i := FinalStatus(requested, code), s.sessions[w];
            var r := if status == Crashed && i.current.Some? then Recovering(i.current.value)
                     else Finished(Some(status));
            Reachable(s.(sessions := s.sessions[w := i.(status := status)],
                         workers := s.workers[w := s.workers[w].(reader := r)]))
  {
    ReachableStep(s, Read(w, Finalize(code)));
  }

  lemma ReachesSpawned(s: State, sid: SessionId, mode: SessionMode, cwd: string, model: Option<string>)
    requires Reachable(s) && sid !in s.sessions && sid !in s.workers
    ensures Reachable(s.(sessions := s.sessions[sid := Spawned(mode, cwd, model)],
                         workers := s.workers[sid := NEW_WORKER]))
  {
    ReachableStep(s, Cmd(Spawn(sid, mode, cwd, model)));
  }

  lemma ReachesFound(s: State, sid: SessionId)
    requires Reachable(s) && s.sched.Took? && s.sched.tid in s.tasks && sid in s.sessions
    requires Matches(s.sessions[sid], s.tasks[s.sched.tid])
    ensures Reachable(s.(sched := Chosen(s.sched.tid, sid)))
  {
    ReachableStep(s, Sched(FindIdle(sid)));
  }

  lemma ReachesNewWorker(s: State, sid: SessionId)
    requires Reachable(s) && s.sched.Took? && s.sched.tid in s.tasks && sid !in s.sessions && sid !in s.workers
    ensures var t := s.tasks[s.sched.tid];
            Reachable(s.(sessions := s.sessions[sid := Spawned(Headless, t.cwd, t.model)],
                         workers := s.workers[sid := NEW_WORKER], sched := Chosen(s.sched.tid, sid)))
  {
    ReachableStep(s, Sched(SpawnFor(sid)));
  }

  lemma ReachesStarted(s: State, sid: SessionId, tid: TaskId, now: int)
    requires Reachable(s) && s.sched == Chosen(tid, sid)
    ensures Reachable(s.(tasks := MoveIn(s.tasks, tid, Start(sid, now)), workers := StartedLast(s.workers, sid, tid),
                         sched := HalfBound(tid, sid)))
  {
    ReachableStep(s, Sched(BindTask(tid, sid, now)));
  }

  function StartedLast(workers: map<SessionId, Worker>, sid: SessionId, tid: TaskId): map<SessionId, Worker> {
    if sid in workers then workers[sid := workers[sid].(last := Some(tid))] else workers
  }

  lemma ReachesLookup(s: State, sid: SessionId, tid: TaskId)
    requires Reachable(s) && s.sched == Sending(tid, sid)
    ensures Reachable(s.(sched := if sid in s.sessions then Writing(tid, sid)
                                  else Failing(tid, SendError("unknown session"))))
  {
    ReachableStep(s, Sched(Lookup));
  }

  lemma ReachesSent(s: State, sid: SessionId, tid: TaskId)
    requires Reachable(s) && s.sched == Writing(tid, sid)
    ensures Reachable(s.(workers := Asked(s.workers, sid, ForTask(tid)),
                         sessions := WithStatus(s.sessions, sid, Busy), sched := Resting))
  {
    ReachableStep(s, Sched(WriteOk));
    ReachableStep(Apply(s, Sched(WriteOk)), Sched(MarkSent));
  }

  lemma ReachesMarked(s: State, sid: SessionId)
    requires Reachable(s) && sid in s.marks
    ensures Reachable(s.(sessions := WithStatus(s.sessions, sid, Busy), marks := s.marks - multiset{sid}))
  {
    ReachableStep(s, Cmd(MarkBusy(sid)));
  }

  lemma FlagsWithStatus(lru: seq<SessionId>, sessions: map<SessionId, Session>, sid: SessionId, status: SessionStatus)
    requires AttachOk(lru, sessions)
    ensures AttachOk(lru, WithStatus(sessions, sid, status)) && WithStatus(sessions, sid, status).Keys == sessions.Keys
  {
    forall w | w in WithStatus(sessions, sid, status)
      ensures WithStatus(sessions, sid, status)[w].attached <==> w in lru
    {
      assert w in sessions;
    }
  }

  lemma ReachesStopped(s: State, sid: SessionId)
    requires Reachable(s) && sid in s.sessions
    ensures sid in s.workers && Reachable(s.(workers := StoreStop(s.workers, sid)))
  {
    ReachableInv(s);
    ReachableStep(s, Cmd(Kill(sid)));
  }

  lemma ReachesRemoved(s: State, sid: SessionId)
    requires Reachable(s) && sid in s.sessions
    ensures var current := s.sessions[sid].current;
            Reachable(s.(sessions := s.sessions - {sid}, workers := StoppedBy(s.sessions, s.workers, sid),
                         fails := if current.Some? then s.fails + multiset{current.value} else s.fails))
  {
    ReachableStep(s, Cmd(Remove(sid)));
  }

  lemma ReachesFailed(s: State, tid: TaskId, now: int)
    requires Reachable(s) && tid in s.fails
    ensures Reachable(s.(tasks := MoveIn(s.tasks, tid, Removal(now)), fails := s.fails - multiset{tid}))
  {
    ReachableStep(s, Cmd(FailRemoved(tid, now)));
  }

  function FailedBy(tasks: map<TaskId, Task>, held: Option<TaskId>, now: int): map<TaskId, Task> {
    if held.Some? then MoveIn(tasks, held.value, Removal(now)) else tasks
  }

  /** Same sessions, the attached flag aside. */
  ghost predicate SameButAttached(was: map<SessionId, Session>, sessions: map<SessionId, Session>) {
    && sessions.Keys == was.Keys
    && forall w {:trigger w in sessions} :: w in sessions ==>
         sessions[w] == was[w].(attached := sessions[w].attached)
  }

  function WithFlag(sessions: map<SessionId, Session>, sid: SessionId, on: bool): map<SessionId, Session> {
    if sid in sessions then sessions[sid := sessions[sid].(attached := on)] else sessions
  }

  /** Only the flags of the listed sessions were turned off. */
  ghost predicate FlagsCleared(was: map<SessionId, Session>, sessions: map<SessionId, Session>, sids: seq<SessionId>) {
    && SameButAttached(was, sessions)
    && forall w {:trigger w in sessions} :: w in sessions ==>
         sessions[w].attached == (was[w].attached && w !in sids)
  }

  lemma ClearOneMore(was: map<SessionId, Session>, sessions: map<SessionId, Session>, sids: seq<SessionId>, i: nat)
    requires i < |sids| && FlagsCleared(was, sessions, sids[..i])
    ensures FlagsCleared(was, WithFlag(sessions, sids[i], false), sids[..i + 1])
  {
    assert sids[..i + 1] == sids[..i] + [sids[i]];
  }

  /** One entry is gone, if it was there; the rest keep their order. */
  ghost predicate Dropped(was: seq<SessionId>, now: seq<SessionId>, sid: SessionId) {
    && (sid !in was ==> now == was)
    && forall i: nat {:trigger DroppedAt(was, now, i)} :: i < |was| && was[i] == sid ==> DroppedAt(was, now, i)
  }

  predicate DroppedAt(was: seq<SessionId>, now: seq<SessionId>, i: nat) {
    i < |was| && now == was[..i] + was[i + 1..]
  }

  lemma WithoutDrops(l: seq<SessionId>, sid: SessionId)
    requires AttachLru.NoDup(l)
    ensures Dropped(l, AttachLru.Without(l, sid), sid)
  {
    AttachLru.WithoutMembers(l, sid, sid);
    forall i: nat | i < |l| && l[i] == sid ensures DroppedAt(l, AttachLru.Without(l, sid), i) {
      AttachLru.WithoutAt(l, i);
    }
  }

  lemma WithoutOk(l: seq<SessionId>, x: SessionId)
    requires AttachLru.NoDup(l)
    ensures AttachLru.NoDup(AttachLru.Without(l, x)) && |AttachLru.Without(l, x)| <= |l|
    ensures forall y :: y in AttachLru.Without(l, x) <==> y in l && y != x
  {
    AttachLru.WithoutNoDup(l, x);
    AttachLru.WithoutMembers(l, x, x);
    forall y ensures y in AttachLru.Without(l, x) <==> y in l && y != x { AttachLru.WithoutMembers(l, x, y); }
  }

  /** The eviction loop: keeps the newest `max` entries. */
  method EvictOldest(l: seq<SessionId>, max: nat) returns (evicted: seq<SessionId>, kept: seq<SessionId>)
    ensures evicted + kept == l && kept == LastN(l, max)
  {
    evicted, kept := [], l;
    while |kept| > max
      invariant |evicted| <= |l| && evicted == l[..|evicted|] && kept == l[|evicted|..]
      invariant |kept| < max ==> evicted == []
    {
      evicted, kept := evicted + [kept[0]], kept[1..];
    }
  }

  /** Moves `sid` to the end of the list and evicts the oldest past the cap. */
  method Renew(l: seq<SessionId>, sid: SessionId, max: nat) returns (evicted: seq<SessionId>, lru: seq<SessionId>)
    requires 1 <= max
    ensures evicted + lru == AttachLru.Without(l, sid) + [sid] && lru == AttachLru.Touched(l, sid, max)
    ensures 1 <= |lru| <= max && lru[|lru| - 1] == sid
  {
    var renewed := AttachLru.Without(l, sid) + [sid];
    evicted, lru := EvictOldest(renewed, max);
    EndsWithNewest(renewed, max);
  }

  lemma EndsWithNewest(l: seq<SessionId>, max: nat)
    requires l != [] && 1 <= max
    ensures var kept := LastN(l, max); 1 <= |kept| <= max && kept[|kept| - 1] == l[|l| - 1]
  {}

  /** The flags after an attach agree with the new list. */
  lemma FlagsAfterAttach(l: seq<SessionId>, was: map<SessionId, Session>, cleared: map<SessionId, Session>,
                         sid: SessionId, evicted: seq<SessionId>, lru: seq<SessionId>)
    requires AttachOk(l, was) && evicted + lru == AttachLru.Without(l, sid) + [sid] && 1 <= |lru| <= 16
    requires FlagsCleared(was, cleared, evicted)
    ensures AttachOk(lru, WithFlag(cleared, sid, true)) && SameButAttached(was, WithFlag(cleared, sid, true))
  {
    WithoutOk(l, sid);
    var now := WithFlag(cleared, sid, true);
    ListAfterAttach(AttachLru.Without(l, sid), sid, evicted, lru);
    forall w | w in now ensures now[w].attached <==> w in lru {
      assert w in was && w in cleared;
    }
  }

  /** The newest is listed; everybody else is listed who was and is not evicted. */
  lemma ListAfterAttach(kept: seq<SessionId>, sid: SessionId, evicted: seq<SessionId>, lru: seq<SessionId>)
    requires AttachLru.NoDup(kept) && sid !in kept && evicted + lru == kept + [sid] && 1 <= |lru|
    ensures AttachLru.NoDup(lru) && lru[|lru| - 1] == sid
    ensures forall w :: w in lru <==> w == sid || (w in kept && w !in evicted)
  {
    var all := kept + [sid];
    assert AttachLru.NoDup(all) by {
      forall i, j | 0 <= i < j < |all| ensures all[i] != all[j] { assert all[i] in kept; }
    }
    assert lru == all[|evicted|..] && evicted == all[..|evicted|];
    forall w ensures w in lru <==> w == sid || (w in kept && w !in evicted) {
      assert w in all <==> w == sid || w in kept;
      assert w in all <==> w in evicted || w in lru;
      assert w in lru ==> w !in evicted;
      assert lru[|lru| - 1] == sid;
    }
  }

  /** Inserts a task before the first one it outranks. */
  method InsertTask(v: seq<Task>, t: Task) returns (r: seq<Task>)
    requires InOrder(v) && forall i :: 0 <= i < |v| ==> v[i].id != t.id
    ensures InOrder(r) && forall x :: x in r <==> x in v || x == t
  {
    var k := 0;
    while k < |v| && ListOrder(v[k], t) <= 0
      invariant 0 <= k <= |v| && forall i :: 0 <= i < k ==> RanksAtLeast(v[i], t)
    {
      OrdersAgree(v[k], t);
      k := k + 1;
    }
    if k < |v| { OrdersAgree(v[k], t); }
    r := v[..k] + [t] + v[k..];
    InsertedInOrder(v, t, k);
  }

  ghost predicate InOrder(v: seq<Task>) {
    forall i, j :: 0 <= i < j < |v| ==> v[i].id != v[j].id && RanksAtLeast(v[i], v[j])
  }

  lemma InsertedInOrder(v: seq<Task>, t: Task, k: nat)
    requires InOrder(v) && k <= |v| && forall i :: 0 <= i < |v| ==> v[i].id != t.id
    requires forall i :: 0 <= i < k ==> RanksAtLeast(v[i], t)
    requires k < |v| ==> !RanksAtLeast(v[k], t)
    ensures var r := v[..k] + [t] + v[k..];
            InOrder(r) && forall x :: x in r <==> x in v || x == t
  {
    var r := v[..k] + [t] + v[k..];
    forall i, j | 0 <= i < j < |r| ensures r[i].id != r[j].id && RanksAtLeast(r[i], r[j]) {
      var a, b := if i <= k then i else i - 1, if j <= k then j else j - 1;
      assert i != k ==> r[i] == v[a];
      assert j != k ==> r[j] == v[b];
    }
    assert v == v[..k] + v[k..];
  }

  /** Nothing but `tid` changes. */
  ghost predicate Others(was: map<TaskId, Task>, tasks: map<TaskId, Task>, tid: TaskId) {
    && tid in tasks && tasks.Keys == was.Keys
    && forall t {:trigger SameTask(was, tasks, t)} :: t in tasks && t != tid ==> SameTask(was, tasks, t)
  }

  predicate SameTask(was: map<TaskId, Task>, tasks: map<TaskId, Task>, t: TaskId) {
    t in was && t in tasks && tasks[t] == was[t]
  }

  lemma NewIsSameReaders(workers: map<SessionId, Worker>, id: SessionId)
    requires id !in workers
    ensures SameReaders(workers, workers[id := NEW_WORKER])
  {}

  lemma ReadersCompose(a: map<SessionId, Worker>, b: map<SessionId, Worker>, c: map<SessionId, Worker>)
    requires SameReaders(a, b) && SameReaders(b, c)
    ensures SameReaders(a, c)
  {
    forall w | w in a || w in c ensures SameReader(a, c, w) {
      assert w in a ==> SameReader(a, b, w);
      assert w in b ==> SameReader(a, b, w);
      assert w in b || w in c ==> SameReader(b, c, w);
    }
  }

  // ----- what a reader makes of a worker's output -----

  /** A line of output, and the clock when the reader has it. */
  datatype Line = Line(text: string, at: int)

  /** What the reader makes of a result: the outcome, the counters, and when. */
  datatype Report = Report(isError: bool, summary: string, usage: TokenUsage, at: int)

  function ReportOf(e: Option<StreamJson.Event>, at: int): seq<Report> {
    if e.Some? && e.value.Result?
    then [Report(e.value.isError, StreamJson.StrOr(e.value.answer, "(turn complete)"), e.value.usage, at)]
    else []
  }

  /** The results among the lines. */
  function Reports(lines: seq<Line>): seq<Report> {
    if lines == [] then [] else
    var last := lines[|lines| - 1];
    Reports(lines[..|lines| - 1]) + ReportOf(StreamJson.ParseLine(last.text), last.at)
  }

  function UsageAfter(u: TokenUsage, reports: seq<Report>): TokenUsage {
    if reports == [] then u else AddUsage(UsageAfter(u, reports[..|reports| - 1]), reports[|reports| - 1].usage)
  }

  lemma {:induction false} UsageAppends(u: TokenUsage, a: seq<Report>, b: seq<Report>)
    ensures UsageAfter(u, a + b) == UsageAfter(UsageAfter(u, a), b)
    decreases |b|
  {
    if b == [] {
      assert a + b == a;
    } else {
      var n := |b| - 1;
      assert (a + b)[..|a + b| - 1] == a + b[..n] && (a + b)[|a + b| - 1] == b[n];
      UsageAppends(u, a, b[..n]);
    }
  }

  /** Only a worker's place and the prompts it has answered may change. */
  ghost predicate SameButTurns(was: map<SessionId, Worker>, workers: map<SessionId, Worker>, w: SessionId) {
    && w in was && workers.Keys == was.Keys
    && workers[w] == was[w].(reader := workers[w].reader, turns := workers[w].turns)
    && forall v {:trigger SameWorker(was, workers, v)} :: v in was && v != w ==> SameWorker(was, workers, v)
  }

  predicate SameWorker(was: map<SessionId, Worker>, workers: map<SessionId, Worker>, v: SessionId) {
    v in was && v in workers && workers[v] == was[v]
  }

  lemma SameButTurnsCompose(a: map<SessionId, Worker>, b: map<SessionId, Worker>, c: map<SessionId, Worker>,
                            w: SessionId)
    requires SameButTurns(a, b, w) && SameButTurns(b, c, w)
    ensures SameButTurns(a, c, w)
  {
    forall v | v in a && v != w ensures SameWorker(a, c, v) {
      assert SameWorker(a, b, v) && SameWorker(b, c, v);
    }
  }

  lemma AnsweredIsSame(workers: map<SessionId, Worker>, w: SessionId, isError: bool, summary: string)
    requires w in workers
    ensures var k := Answered(workers[w], isError, summary);
            && SameButTurns(workers, workers[w := k], w)
            && k.reader.SawResult? && k.reader.isError == isError && k.reader.summary == summary
  {}

  lemma MovedIsSame(workers: map<SessionId, Worker>, w: SessionId, r: Reader)
    requires w in workers
    ensures SameButTurns(workers, workers[w := workers[w].(reader := r)], w)
  {}

  function HeldBy(sessions: map<SessionId, Session>, w: SessionId): Option<TaskId> {
    if w in sessions then sessions[w].current else None
  }

  /** Reports change their own session only: their counters add up and its task is released. */
  ghost predicate Heard(was: map<SessionId, Session>, sessions: map<SessionId, Session>, w: SessionId,
                        reports: seq<Report>) {
    && (w !in was ==> sessions == was)
    && (w in was ==>
          && w in sessions && sessions == was[w := sessions[w]] && sessions[w].mode == was[w].mode
          && sessions[w].usage == UsageAfter(was[w].usage, reports)
          && sessions[w].current == if reports == [] then was[w].current else None)
  }

  function Settled(tasks: map<TaskId, Task>, held: Option<TaskId>, isError: bool, summary: string, now: int)
    : map<TaskId, Task> {
    if held.Some? then MoveIn(tasks, held.value, Settle(isError, summary, now)) else tasks
  }

  /** The task held is settled by the first report; whatever follows settles nothing. */
  function SettledBy(tasks: map<TaskId, Task>, held: Option<TaskId>, reports: seq<Report>): map<TaskId, Task> {
    if reports == [] then tasks
    else Settled(tasks, held, reports[0].isError, reports[0].summary, reports[0].at)
  }

  /** The session without its task. */
  function Released(sessions: map<SessionId, Session>, w: SessionId): map<SessionId, Session> {
    if HeldBy(sessions, w).Some? then sessions[w := sessions[w].(current := None)] else sessions
  }

  /** The session with a result's counters, idle. */
  function Noted(sessions: map<SessionId, Session>, w: SessionId, usage: TokenUsage): map<SessionId, Session> {
    if w !in sessions then sessions else
    sessions[w := sessions[w].(usage := AddUsage(sessions[w].usage, usage), status := Idle)]
  }

  /** What an event makes of its session's record. */
  function Told(i: Session, e: StreamJson.Event): Session {
    match e
    case Init(_, _, cwd) => i.(cwd := if cwd.Some? then cwd.value else i.cwd,
                               status := if i.status == Starting then Idle else i.status)
    case Assistant(_, _) => i.(status := Busy)
    case Result(_, _, usage, _, _) => i.(usage := AddUsage(i.usage, usage), status := Idle, current := None)
    case _ => i
  }

  /** What it makes of the task the session holds: only a result ends it, as it says. */
  function TaskTold(tasks: map<TaskId, Task>, held: Option<TaskId>, e: StreamJson.Event, now: int)
    : map<TaskId, Task> {
    if !e.Result? || held.None? || held.value !in tasks then tasks else
    var t := tasks[held.value];
    var text := Truncate(if e.answer.Some? then e.answer.value else "(turn complete)", 300);
    tasks[held.value := if e.isError then t.(status := Failed, finishedAt := Some(now), error := Some(text))
                        else t.(status := Done, finishedAt := Some(now), resultSummary := Some(text))]
  }

  lemma ResultTold(was: map<SessionId, Session>, tasks: map<TaskId, Task>, w: SessionId, e: StreamJson.Event, now: int)
    requires e.Result?
    ensures Released(Noted(was, w, e.usage), w) == if w in was then was[w := Told(was[w], e)] else was
    ensures Settled(tasks, HeldBy(Noted(was, w, e.usage), w), e.isError,
                    if e.answer.Some? then e.answer.value else "(turn complete)", now) ==
            TaskTold(tasks, HeldBy(was, w), e, now)
  {}

  lemma ToldIsHeard(was: map<SessionId, Session>, tasks: map<TaskId, Task>, w: SessionId,
                    e: Option<StreamJson.Event>, now: int)
    ensures Heard(was, was, w, [])
    ensures w in was && e.Some? ==> Heard(was, was[w := Told(was[w], e.value)], w, ReportOf(e, now))
    ensures SettledBy(tasks, HeldBy(was, w), ReportOf(e, now)) ==
            if e.Some? then TaskTold(tasks, HeldBy(was, w), e.value, now) else tasks
    ensures w !in was ==> Heard(was, was, w, ReportOf(e, now))
  {
    assert forall r: Report :: [r][..0] == [];
  }

  /** The line the agent prints at the end of a turn. */
  predicate IsResultLine(text: string, failed: bool, answer: string, usage: TokenUsage, turns: nat) {
    && Fits(usage) && turns < U64
    && text == Json.Print(Json.Object(StreamJson.ResultMembers(failed, answer, usage, turns)))
  }

  /** It means to session and task what it says. */
  lemma ResultLineTold(text: string, e: Option<StreamJson.Event>, i: Session, tasks: map<TaskId, Task>, now: int)
    requires e == StreamJson.ParseLine(text)
    ensures forall failed, answer, usage, turns: nat ::
              IsResultLine(text, failed, answer, usage, turns) ==>
              && e.Some? && Told(i, e.value) == i.(usage := AddUsage(i.usage, usage), status := Idle, current := None)
              && (i.current.Some? && i.current.value in tasks ==>
                    TaskTold(tasks, i.current, e.value, now) == tasks[i.current.value :=
                      if failed then tasks[i.current.value].(status := Failed, finishedAt := Some(now),
                                                             error := Some(Truncate(answer, 300)))
                      else tasks[i.current.value].(status := Done, finishedAt := Some(now),
                                                   resultSummary := Some(Truncate(answer, 300)))])
  {
    forall failed, answer, usage, turns: nat | IsResultLine(text, failed, answer, usage, turns)
      ensures e == Some(StreamJson.Result(failed, Some(answer), usage, Some(turns % 0x1_0000_0000), None))
    {
      StreamJson.ResultRoundTrip(failed, answer, usage, turns);
    }
  }

  lemma HeardAppends(a: map<SessionId, Session>, b: map<SessionId, Session>, c: map<SessionId, Session>,
                     w: SessionId, first: seq<Report>, more: seq<Report>)
    requires Heard(a, b, w, first) && Heard(b, c, w, more)
    ensures Heard(a, c, w, first + more)
  {
    if w in a { UsageAppends(a[w].usage, first, more); }
    else { assert c == a; }
  }

  lemma SettledAppends(tasks: map<TaskId, Task>, a: map<SessionId, Session>, b: map<SessionId, Session>,
                       w: SessionId, first: seq<Report>, more: seq<Report>)
    requires Heard(a, b, w, first)
    ensures SettledBy(SettledBy(tasks, HeldBy(a, w), first), HeldBy(b, w), more) ==
            SettledBy(tasks, HeldBy(a, w), first + more)
  {
    if first == [] { assert first + more == more; } else { assert (first + more)[0] == first[0]; }
  }

  lemma OneMoreLine(lines: seq<Line>, i: nat)
    requires i < |lines|
    ensures Reports(lines[..i + 1]) ==
            Reports(lines[..i]) + ReportOf(StreamJson.ParseLine(lines[i].text), lines[i].at)
  {
    var all := lines[..i + 1];
    assert all[..|all| - 1] == lines[..i] && all[|all| - 1] == lines[i];
  }

  lemma OneMoreHeard(a: map<SessionId, Session>, b: map<SessionId, Session>, c: map<SessionId, Session>,
                     tasks: map<TaskId, Task>, w: SessionId, lines: seq<Line>, i: nat)
    requires i < |lines| && Heard(a, b, w, Reports(lines[..i]))
    requires Heard(b, c, w, ReportOf(StreamJson.ParseLine(lines[i].text), lines[i].at))
    ensures Heard(a, c, w, Reports(lines[..i + 1]))
    ensures SettledBy(SettledBy(tasks, HeldBy(a, w), Reports(lines[..i])), HeldBy(b, w),
                      ReportOf(StreamJson.ParseLine(lines[i].text), lines[i].at)) ==
            SettledBy(tasks, HeldBy(a, w), Reports(lines[..i + 1]))
  {
    var first, more := Reports(lines[..i]), ReportOf(StreamJson.ParseLine(lines[i].text), lines[i].at);
    OneMoreLine(lines, i);
    HeardAppends(a, b, c, w, first, more);
    SettledAppends(tasks, a, b, w, first, more);
  }

  /** What the end of a session leaves of the task it held. */
  function Recovered(tasks: map<TaskId, Task>, held: Option<TaskId>, verdict: SessionStatus, autoRestart: bool,
                     now: int): map<TaskId, Task> {
    if held.Some? && verdict == Crashed then MoveIn(tasks, held.value, Recover(autoRestart, now)) else tasks
  }

  lemma VerdictMeans(sessions: map<SessionId, Session>, w: SessionId, requested: bool, code: Option<int>)
    ensures w in sessions ==>
              WithStatus(sessions, w, FinalStatus(requested, code)) ==
              sessions[w := sessions[w].(
                status := if requested then Stopped else if code == Some(0) then Completed else Crashed)]
  {}

  lemma EndMeans(tasks: map<TaskId, Task>, held: Option<TaskId>, requested: bool, code: Option<int>,
                 autoRestart: bool, now: int)
    ensures var after := Recovered(tasks, held, FinalStatus(requested, code), autoRestart, now);
            && (requested || code == Some(0) || held.None? ==> after == tasks)
            && (!requested && code != Some(0) && held.Some? && held.value in tasks ==>
                  var t := tasks[held.value];
                  after == tasks[held.value :=
                    if autoRestart && t.attempts < t.maxAttempts
                    then t.(status := Queued, sessionId := None, startedAt := None)
                    else t.(status := Failed, finishedAt := Some(now), error := Some("session crashed"))])
  {}

  /** The task a worker held over its whole life: settled by its first report; without one, recovered after
      a crash and left alone otherwise. */
  function LeftBehind(tasks: map<TaskId, Task>, held: Option<TaskId>, reports: seq<Report>,
                      verdict: SessionStatus, autoRestart: bool, end: int): map<TaskId, Task> {
    if reports != [] then SettledBy(tasks, held, reports) else Recovered(tasks, held, verdict, autoRestart, end)
  }

  lemma LeftBehindMeans(tasks: map<TaskId, Task>, held: Option<TaskId>, reports: seq<Report>, stopped: bool,
                        code: Option<int>, autoRestart: bool, end: int)
    ensures held.Some? && held.value in tasks ==>
              var tid, t := held.value, tasks[held.value];
              LeftBehind(tasks, held, reports, FinalStatus(stopped, code), autoRestart, end) == tasks[tid :=
                if reports != [] && reports[0].isError then
                  t.(status := Failed, finishedAt := Some(reports[0].at),
                     error := Some(Truncate(reports[0].summary, 300)))
                else if reports != [] then
                  t.(status := Done, finishedAt := Some(reports[0].at),
                     resultSummary := Some(Truncate(reports[0].summary, 300)))
                else if stopped || code == Some(0) then t
                else if autoRestart && t.attempts < t.maxAttempts then
                  t.(status := Queued, sessionId := None, startedAt := None)
                else t.(status := Failed, finishedAt := Some(end), error := Some("session crashed"))]
  {}

  /** The lines of a worker's output, as the agent prints them: ends of turns, and messages in between. */
  datatype Output =
    | TurnEnd(failed: bool, answer: string, usage: TokenUsage, turns: nat)
    | Message(blocks: seq<StreamJson.Block>)

  function Printed(o: Output): string {
    match o
    case TurnEnd(failed, answer, usage, turns) =>
      Json.Print(Json.Object(StreamJson.ResultMembers(failed, answer, usage, turns)))
    case Message(blocks) => Json.Print(Json.Object(StreamJson.MessageMembers("assistant", blocks)))
  }

  predicate InRange(o: Output) {
    if o.TurnEnd? then Fits(o.usage) && o.turns < U64 else StreamJson.Readable(o.blocks)
  }

  lemma PrintedOutput(o: Output, at: int)
    requires InRange(o)
    ensures ReportOf(StreamJson.ParseLine(Printed(o)), at) ==
            if o.TurnEnd? then [Report(o.failed, o.answer, o.usage, at)] else []
  {
    if o.TurnEnd? { StreamJson.ResultRoundTrip(o.failed, o.answer, o.usage, o.turns); }
    else { StreamJson.MessageRoundTrip(o.blocks); }
  }

  /** The reports of a printed output are its ends of turns, in order, each with its own outcome, answer,
      counters and time; in particular the first report is the first end of a turn. */
  lemma {:induction false} ReportsOfPrinted(outputs: seq<Output>, ats: seq<int>)
    requires |outputs| == |ats| && forall i :: 0 <= i < |outputs| ==> InRange(outputs[i])
    ensures Reports(seq(|outputs|, i requires 0 <= i < |outputs| => Line(Printed(outputs[i]), ats[i]))) ==
            TurnEnds(outputs, ats)
    decreases |outputs|
  {
    var lines := seq(|outputs|, i requires 0 <= i < |outputs| => Line(Printed(outputs[i]), ats[i]));
    if outputs != [] {
      var n := |outputs| - 1;
      ReportsOfPrinted(outputs[..n], ats[..n]);
      assert lines[..n] == seq(n, i requires 0 <= i < n => Line(Printed(outputs[..n][i]), ats[..n][i]));
      PrintedOutput(outputs[n], ats[n]);
    }
  }

  function TurnEnds(outputs: seq<Output>, ats: seq<int>): seq<Report>
    requires |outputs| == |ats|
  {
    if outputs == [] then [] else
    var n := |outputs| - 1;
    var o := outputs[n];
    TurnEnds(outputs[..n], ats[..n]) + if o.TurnEnd? then [Report(o.failed, o.answer, o.usage, ats[n])] else []
  }

  lemma EndAfterLines(was: map<SessionId, Session>, read: map<SessionId, Session>, tasks: map<TaskId, Task>,
                      w: SessionId, reports: seq<Report>, verdict: SessionStatus, autoRestart: bool, end: int)
    requires Heard(was, read, w, reports)
    ensures Heard(was, WithStatus(read, w, verdict), w, reports)
    ensures Recovered(SettledBy(tasks, HeldBy(was, w), reports), HeldBy(read, w), verdict, autoRestart, end) ==
            LeftBehind(tasks, HeldBy(was, w), reports, verdict, autoRestart, end)
  {
    if w in was { assert WithStatus(read, w, verdict) == was[w := WithStatus(read, w, verdict)[w]]; }
  }

  /** No reader moves and no stop is stored; new workers are being read. */
  ghost predicate SameReaders(was: map<SessionId, Worker>, workers: map<SessionId, Worker>) {
    forall w {:trigger SameReader(was, workers, w)} ::
      w in was || w in workers ==> SameReader(was, workers, w)
  }

  predicate SameReader(was: map<SessionId, Worker>, workers: map<SessionId, Worker>, w: SessionId) {
    && w in workers
    && var k := if w in was then was[w] else NEW_WORKER;
    workers[w] == k.(last := workers[w].last, turns := workers[w].turns)
  }

  /** At most one more active headless worker. */
  predicate Grows(was: map<SessionId, Session>, sessions: map<SessionId, Session>) {
    |ActiveHeadless(sessions)| <= |ActiveHeadless(was)| + 1
  }

  /** What the turns of the admission loop add up to. */
  ghost predicate Ticked(was: map<TaskId, Task>, tasks: map<TaskId, Task>,
                         sWas: map<SessionId, Session>, sessions: map<SessionId, Session>, well: bool) {
    && (forall t :: t in was ==> was[t].id == t)
    && OnlyHandled(was, tasks, sWas, sessions, well) && Keeps(sWas, sessions) && NoInversion(was, tasks)
  }

  lemma KeepsAll(sessions: map<SessionId, Session>)
    ensures Keeps(sessions, sessions)
  {}

  lemma KeepsCompose(a: map<SessionId, Session>, b: map<SessionId, Session>, c: map<SessionId, Session>)
    requires Keeps(a, b) && Keeps(b, c)
    ensures Keeps(a, c)
  {
    forall w ensures Kept(a, c, w) { assert Kept(a, b, w) && Kept(b, c, w); }
  }

  lemma BoundKeeps(was: map<SessionId, Session>, now: map<SessionId, Session>, sid: SessionId, tid: TaskId)
    requires sid in was && was[sid].current == None && was[sid].status.IsActive()
    requires sid in now && now == was[sid := was[sid].(current := Some(tid), status := now[sid].status)]
    requires now[sid].status in {Busy, was[sid].status}
    ensures Keeps(was, now) && ActiveHeadless(now) == ActiveHeadless(was) && now.Keys == was.Keys
  {}

  lemma NewWorkerKeeps(was: map<SessionId, Session>, spawned: map<SessionId, Session>, now: map<SessionId, Session>,
                       sid: SessionId, task: Task)
    requires sid !in was && sid in spawned && spawned == was[sid := spawned[sid]]
    requires spawned[sid].current == None && spawned[sid].status.IsActive()
    requires sid in now && now == spawned[sid := spawned[sid].(current := Some(task.id), status := now[sid].status)]
    requires now[sid].status in {Busy, spawned[sid].status}
    ensures Keeps(was, now) && Grows(was, now)
  {
    BoundKeeps(spawned, now, sid, task.id);
    forall w ensures Kept(was, now, w) { assert Kept(spawned, now, w); }
    assert ActiveHeadless(spawned) <= ActiveHeadless(was) + {sid};
    Guarantees.SubsetSize(ActiveHeadless(spawned), ActiveHeadless(was) + {sid});
  }

  /** A session that gained its task in an earlier turn is not touched in a later one. */
  lemma RunsOnLater(t: Task, was: map<SessionId, Session>, mid: map<SessionId, Session>, now: map<SessionId, Session>,
                    w: SessionId)
    requires RunsOn(t, was, mid, w) && Keeps(mid, now)
    ensures RunsOn(t, was, now, w)
  {
    assert Kept(mid, now, w);
  }

  /** A session that is idle and free now was so from the start, or is new. */
  lemma RunsOnEarlier(t: Task, was: map<SessionId, Session>, mid: map<SessionId, Session>, now: map<SessionId, Session>,
                      w: SessionId)
    requires RunsOn(t, mid, now, w) && Keeps(was, mid)
    ensures RunsOn(t, was, now, w)
  {
    assert Kept(was, mid, w);
  }

  /** One turn of the loop: `tid` was taken from `mid` and placed, giving `now`. */
  lemma AfterTurn(was: map<TaskId, Task>, mid: map<TaskId, Task>, now: map<TaskId, Task>,
                  sWas: map<SessionId, Session>, sMid: map<SessionId, Session>, sNow: map<SessionId, Session>,
                  tid: TaskId, well: bool, wellNow: bool)
    requires Ticked(was, mid, sWas, sMid, well) && (well ==> wellNow)
    requires IsNext(mid, tid) && Others(mid, now, tid) && Placed(mid[tid], now[tid], sMid, sNow, wellNow)
    requires Keeps(sMid, sNow)
    ensures Ticked(was, now, sWas, sNow, well)
    ensures Queue(now) < Queue(mid)
  {
    assert Handled(was, mid, sWas, sMid, well, tid);
    assert mid[tid] == was[tid];
    KeepsCompose(sWas, sMid, sNow);
    forall t | t in was ensures Handled(was, now, sWas, sNow, well, t) {
      PlacedStays(was, mid, now, sWas, sMid, sNow, tid, t, well, wellNow);
    }
    QueueShrinks(mid, now, tid);
    forall t, q | t in was && t in now && q in was && q in now && now[t] != was[t] && now[q].status == Queued
      ensures RanksAtLeast(was[t], was[q])
    {
      assert SameTask(mid, now, q) && (t != tid ==> SameTask(mid, now, t)) && Handled(was, mid, sWas, sMid, well, q);
      assert mid[q] == now[q] == was[q];
      if t == tid { assert RanksAtLeast(mid[tid], mid[q]); }
    }
  }

  lemma QueueShrinks(mid: map<TaskId, Task>, now: map<TaskId, Task>, tid: TaskId)
    requires Others(mid, now, tid) && mid[tid].status == Queued && now[tid].status != Queued
    ensures Queue(now) < Queue(mid)
  {
    assert tid in Queue(mid) && tid !in Queue(now);
    forall t | t in Queue(now) ensures t in Queue(mid) { assert SameTask(mid, now, t); }
  }

  lemma PlacedStays(was: map<TaskId, Task>, mid: map<TaskId, Task>, now: map<TaskId, Task>,
                    sWas: map<SessionId, Session>, sMid: map<SessionId, Session>, sNow: map<SessionId, Session>,
                    tid: TaskId, t: TaskId, well: bool, wellNow: bool)
    requires OnlyHandled(was, mid, sWas, sMid, well) && (well ==> wellNow) && t in was
    requires tid in mid && mid[tid] == was[tid] && mid[tid].status == Queued && Others(mid, now, tid)
    requires Placed(mid[tid], now[tid], sMid, sNow, wellNow) && Keeps(sWas, sMid) && Keeps(sMid, sNow)
    ensures Handled(was, now, sWas, sNow, well, t)
  {
    assert Handled(was, mid, sWas, sMid, well, t);
    if t == tid {
      if now[t].status == Running { RunsOnEarlier(was[t], sWas, sMid, sNow, now[t].sessionId.value); }
    } else {
      assert SameTask(mid, now, t);
      if mid[t] != was[t] && mid[t].status == Running {
        RunsOnLater(was[t], sWas, sMid, sNow, mid[t].sessionId.value);
      }
    }
  }

  lemma AssignedIsPlaced(t: Task, after: Task, was: map<SessionId, Session>, spawned: map<SessionId, Session>,
                         now: map<SessionId, Session>, sid: SessionId, error: Option<string>, o: Outcome)
    requires sid in spawned && spawned[sid].mode == Headless
    requires spawned[sid].cwd == t.cwd && spawned[sid].specModel == t.model
    requires sid in was ==> was[sid] == spawned[sid] && was[sid].status == Idle && was[sid].current == None
    requires now == spawned[sid := spawned[sid].(current := Some(t.id),
                                                 status := if error.None? then Busy else spawned[sid].status)]
    requires t.attempts < 0xFFFF_FFFF
    requires after == if error.None? then
                        t.(status := Running, sessionId := Some(sid), startedAt := Some(o.start),
                           attempts := t.attempts + 1)
                      else t.(status := Failed, sessionId := Some(sid), startedAt := Some(o.start),
                              attempts := t.attempts + 1, finishedAt := Some(o.end), error := error)
    ensures Placed(t, after, was, now, error.None?) && (after.status == Running <==> error.None?)
  {}

  lemma ReusedIsPlaced(t: Task, after: Task, was: map<SessionId, Session>, now: map<SessionId, Session>, sid: SessionId,
                       error: Option<string>, o: Outcome)
    requires sid in was && Matches(was[sid], t) && t.attempts < 0xFFFF_FFFF
    requires now == was[sid := was[sid].(current := Some(t.id),
                                         status := if error.None? then Busy else was[sid].status)]
    requires after == if error.None? then
                        t.(status := Running, sessionId := Some(sid), startedAt := Some(o.start),
                           attempts := t.attempts + 1)
                      else t.(status := Failed, sessionId := Some(sid), startedAt := Some(o.start),
                              attempts := t.attempts + 1, finishedAt := Some(o.end), error := error)
    ensures Placed(t, after, was, now, error.None?) && (after.status == Running <==> error.None?)
    ensures Keeps(was, now) && ActiveHeadless(now) == ActiveHeadless(was) && now.Keys == was.Keys
  {
    AssignedIsPlaced(t, after, was, was, now, sid, error, o);
    BoundKeeps(was, now, sid, t.id);
  }

  lemma OthersKept(was: map<TaskId, Task>, tid: TaskId, t: Task)
    requires tid in was
    ensures Others(was, was[tid := t], tid)
  {}

  lemma TakenIsPlaced(was: map<TaskId, Task>, taken: map<TaskId, Task>, now: map<TaskId, Task>, tid: TaskId,
                      sWas: map<SessionId, Session>, sessions: map<SessionId, Session>, well: bool)
    requires tid in was && taken == was[tid := was[tid].(status := Assigned)] && Others(taken, now, tid)
    requires Placed(taken[tid], now[tid], sWas, sessions, well)
    ensures Others(was, now, tid) && Placed(was[tid], now[tid], sWas, sessions, well)
  {
    forall t | t in now && t != tid ensures SameTask(was, now, t) { assert SameTask(taken, now, t); }
  }

  lemma AttemptsLeft(s: State, sid: SessionId, tid: TaskId)
    requires Reachable(s) && s.sched == Chosen(tid, sid) && tid in s.tasks
    ensures s.tasks[tid].attempts < 0xFFFF_FFFF
  {
    ReachableInv(s);
  }

  lemma AssignedTask(was: map<TaskId, Task>, sid: SessionId, tid: TaskId, now: int, error: Option<string>, end: int)
    requires tid in was && was[tid].attempts < 0xFFFF_FFFF
    ensures var started := MoveIn(was, tid, Start(sid, now));
            (if error.None? then started else MoveIn(started, tid, Fail(error.value, end))) ==
            was[tid := if error.None? then was[tid].(
                         status := Running, sessionId := Some(sid), startedAt := Some(now),
                         attempts := was[tid].attempts + 1)
                       else was[tid].(
                         status := Failed, sessionId := Some(sid), startedAt := Some(now),
                         attempts := was[tid].attempts + 1, finishedAt := Some(end), error := error)]
  {}

  lemma AssignedSessions(was: map<SessionId, Session>, now: map<SessionId, Session>,
                         sid: SessionId, tid: TaskId, sent: bool)
    requires var held := if sid in was then was[sid := was[sid].(current := Some(tid))] else was;
             now == if sent then WithStatus(held, sid, Busy) else held
    ensures sid !in was ==> now == was
    ensures sid in was ==>
              now == was[sid := was[sid].(current := Some(tid), status := if sent then Busy else was[sid].status)]
  {}
}
