/** Interleavings the code does not guard against, each a run to a state where something one might
    expect fails; the exact condition is proved in the module named beside it. */
module Races {
  import opened Model
  import opened Machine
  import opened Invariant
  import opened Guarantees
  import opened Capacity

  function Job(id: TaskId, tries: u32): Task {
    Task(id, "prompt", "dir", None, None, None, Queued, None, 0, 0, tries, 0, None, None, None, None)
  }

  lemma Do(s: State, step: Step) returns (s': State)
    requires Reachable(s) && Enabled(s, step) && Fresh(s, step)
    ensures Reachable(s') && s' == Apply(s, step)
  {
    ReachableStep(s, step);
    s' := Apply(s, step);
  }

  /** Enqueuing an id that is in the scheduler's hands puts a second token in the queue; the exact
      condition is `Guarantees.EnqueueKeepsTokenIff`. */
  lemma ReusedIdDoublesToken() returns (s: State, again: Step)
    ensures Reachable(s) && Enabled(s, again) && again.Cmd? && again.c.Enqueue?
    ensures InQueue in Places(Apply(s, again), 0) && AtScheduler in Places(Apply(s, again), 0)
  {
    ReachableInit();
    s := INIT;
    again := Cmd(Enqueue(Job(0, 1), 1));
    s := Do(s, again);
    assert ActiveHeadless(s.sessions) == {};
    s := Do(s, Sched(Admit(8)));
    s := Do(s, Sched(TakeTask(0)));
    PlacesAreHolds(Apply(s, again), 0, InQueue);
    PlacesAreHolds(Apply(s, again), 0, AtScheduler);
  }

  // ----- a task on a worker of its own -----

  const POOLED := Session(Headless, Idle, "dir", None, NO_TOKENS, None, false)
  const WORKING := POOLED.(status := Busy, current := Some(0))
  const BOUND := NEW_WORKER.(last := Some(0))
  const PROMPTED := BOUND.(turns := [ForTask(0)])
  const ENDED := Worker(Finished(Some(Completed)), false, false, Some(0), [ForTask(0), ByUser], false, false)

  function Started(tries: u32): Task { Moved(Moved(Enqueued(Job(0, tries), 1), Take), Move.Start(0, 2)) }

  /** Reachable under a cap of one without manual workers. */
  ghost predicate Unmanned(s: State) {
    exists run :: Proper(INIT, run) && Legal(INIT, run) && Exec(INIT, run) == s && AllManaged(run, 1)
  }

  lemma UnmannedIsReachable(s: State)
    requires Unmanned(s)
    ensures Reachable(s)
  {}

  lemma UnmannedInit()
    ensures Unmanned(INIT)
  {
    var none: seq<Step> := [];
    assert Proper(INIT, none) && Legal(INIT, none) && Exec(INIT, none) == INIT && AllManaged(none, 1);
  }

  lemma DoUnmanned(s: State, step: Step) returns (s': State)
    requires Unmanned(s) && Enabled(s, step) && Fresh(s, step) && Managed(step, 1)
    ensures Unmanned(s') && s' == Apply(s, step)
  {
    var run :| Proper(INIT, run) && Legal(INIT, run) && Exec(INIT, run) == s && AllManaged(run, 1);
    OneStep(s, step);
    JoinRuns(INIT, run, [step]);
    JoinProper(INIT, run, step);
    s' := Apply(s, step);
    var all := run + [step];
    assert Proper(INIT, all) && Legal(INIT, all) && Exec(INIT, all) == s' && AllManaged(all, 1);
  }

  function Only(i: Session, k: Worker, sched: Scheduler, tries: u32): State {
    State(map[0 := Started(tries)], map[0 := i], map[0 := k], sched, multiset{}, multiset{})
  }

  /** The scheduler, under a cap of one, spawns a worker for the task. */
  lemma WorkerIsSpawned(tries: u32) returns (s: State)
    ensures Unmanned(s)
    ensures s == State(map[0 := Moved(Enqueued(Job(0, tries), 1), Take)], map[0 := POOLED.(status := Starting)],
                       map[0 := NEW_WORKER], Chosen(0, 0), multiset{}, multiset{})
  {
    UnmannedInit();
    s := DoUnmanned(INIT, Cmd(Enqueue(Job(0, tries), 1)));
    assert ActiveHeadless(s.sessions) == {};
    s := DoUnmanned(s, Sched(Admit(1)));
    s := DoUnmanned(s, Sched(TakeTask(0)));
    s := DoUnmanned(s, Sched(SpawnFor(0)));
  }

  /** It binds the two and is about to write the prompt. */
  lemma WorkerIsBound(tries: u32) returns (s: State)
    ensures Unmanned(s)
    ensures s == Only(WORKING.(status := Starting), BOUND, Writing(0, 0), tries)
  {
    s := WorkerIsSpawned(tries);
    s := DoUnmanned(s, Sched(BindTask(0, 0, 2)));
    s := DoUnmanned(s, Sched(BindSession));
    s := DoUnmanned(s, Sched(Lookup));
  }

  lemma WorkerWorks(tries: u32) returns (s: State)
    ensures Unmanned(s) && s == Only(WORKING, PROMPTED, Resting, tries)
  {
    s := WorkerIsBound(tries);
    assert [] + [ForTask(0)] == [ForTask(0)];
    s := DoUnmanned(s, Sched(WriteOk));
    s := DoUnmanned(s, Sched(MarkSent));
  }

  // ----- a kill that comes too late -----

  lemma ReaderLetsGo(why: Exit) returns (s: State)
    requires !why.StopSeen?
    ensures Reachable(s) && s == Only(WORKING, PROMPTED.(reader := Reaping(false), letGo := true), Resting, 2)
  {
    s := WorkerWorks(2);
    UnmannedIsReachable(s);
    s := Do(s, Read(0, LeaveLoop(why)));
    s := Do(s, Read(0, LoadStop));
  }

  lemma KilledMeanwhile(why: Exit) returns (s: State)
    requires !why.StopSeen?
    ensures Reachable(s)
    ensures s == Only(WORKING, Worker(Reaping(false), true, false, Some(0), [ForTask(0)], true, true), Resting, 2)
  {
    s := ReaderLetsGo(why);
    s := Do(s, Cmd(Kill(0)));
    s := Do(s, Cmd(Die(0)));
  }

  /** The worker's output ends, at end of file or on a read error, while its process lives; the reader
      finds the stop flag down and waits for the process.  A kill that comes now is recorded as a crash,
      and the task the user meant to stop is queued again.  The exact conditions are
      `Kills.KillEndsStoppedIff`, at the kill, and `Kills.KilledAliveEndsStoppedIff`, over the run. */
  lemma KillAfterOutputIsACrash(why: Exit) returns (s: State)
    requires !why.StopSeen?
    ensures Reachable(s) && 0 in s.workers && 0 in s.tasks
    ensures s.workers[0].stoppedAlive && s.workers[0].reader == Finished(Some(Crashed))
    ensures s.tasks[0].status == Queued
  {
    s := KilledMeanwhile(why);
    s := Do(s, Read(0, Finalize(Some(1))));
    s := Do(s, Read(0, RecoverTask(0, true, 3)));
  }

  // ----- a result settles a task whose prompt it does not answer -----

  /** A user's message: the write, then the busy mark. */
  lemma UserSends(s: State, w: SessionId) returns (s': State)
    requires Reachable(s) && w in s.workers && w in s.sessions && s.sessions[w].mode == Headless
    ensures Reachable(s')
    ensures s' == s.(sessions := WithStatus(s.sessions, w, Busy), workers := Asked(s.workers, w, ByUser))
  {
    s' := Do(s, Cmd(WriteTurn(w)));
    s' := Do(s', Cmd(MarkBusy(w)));
    assert s.marks + multiset{w} - multiset{w} == s.marks;
  }

  /** The worker reports; its reader has not yet looked for a task to complete. */
  lemma WorkerReports(s: State, w: SessionId, summary: string) returns (s': State)
    requires Reachable(s) && w in s.workers && s.workers[w].reader == Reading && !s.workers[w].stop
    requires w in s.sessions && s.sessions[w].mode == Headless && s.sessions[w].usage == NO_TOKENS
    ensures Reachable(s')
    ensures s' == s.(sessions := WithStatus(s.sessions, w, Idle),
                     workers := s.workers[w := Answered(s.workers[w], false, summary)])
  {
    s' := Do(s, Read(w, NextLine));
    s' := Do(s', Read(w, ResultEvent(false, summary, NO_TOKENS)));
    assert s'.sessions == WithStatus(s.sessions, w, Idle);
    assert s'.workers == s.workers[w := Answered(s.workers[w], false, summary)];
  }

  /** It looks now. */
  lemma ReaderSettles(s: State, w: SessionId, tid: TaskId, now: int) returns (s': State)
    requires Reachable(s) && w in s.workers && s.workers[w].reader.SawResult? && !s.workers[w].reader.isError
    requires w in s.sessions && s.sessions[w].current == Some(tid)
    ensures Reachable(s') && s'.sched == s.sched
    ensures s'.tasks == MoveIn(s.tasks, tid, Settle(false, s.workers[w].reader.summary, now))
  {
    s' := Do(s, Read(w, TakeCurrent));
    s' := Do(s', Read(w, Complete(tid, now)));
  }

  /** The scheduler binds a fresh task to an idle worker; the prompt is not written yet. */
  lemma IdleWorkerIsChosen(s0: State, k: Worker) returns (s: State)
    requires Reachable(s0)
    requires s0 == State(map[], map[0 := POOLED], map[0 := k], Resting, multiset{}, multiset{})
    ensures Reachable(s)
    ensures s == State(map[0 := Moved(Enqueued(Job(0, 1), 1), Take)], map[0 := POOLED], map[0 := k], Chosen(0, 0),
                       multiset{}, multiset{})
  {
    s := Do(s0, Cmd(Enqueue(Job(0, 1), 1)));
    assert ActiveHeadless(s.sessions) == {0};
    s := Do(s, Sched(Admit(8)));
    s := Do(s, Sched(TakeTask(0)));
    s := Do(s, Sched(FindIdle(0)));
  }

  lemma IdleWorkerIsBound(s0: State, k: Worker) returns (s: State)
    requires Reachable(s0)
    requires s0 == State(map[], map[0 := POOLED], map[0 := k], Resting, multiset{}, multiset{})
    ensures Reachable(s) && s == Only(POOLED.(current := Some(0)), k.(last := Some(0)), Sending(0, 0), 1)
  {
    s := IdleWorkerIsChosen(s0, k);
    s := Do(s, Sched(BindTask(0, 0, 2)));
    s := Do(s, Sched(BindSession));
  }

  lemma UserSpawns() returns (s: State)
    ensures Reachable(s)
    ensures s == State(map[], map[0 := POOLED.(status := Starting)], map[0 := NEW_WORKER], Resting,
                       multiset{}, multiset{})
  {
    ReachableInit();
    s := Do(INIT, Cmd(Spawn(0, Headless, "dir", None)));
  }

  predicate DoneUnprompted(s: State) {
    0 in s.tasks && s.tasks[0].status == Done && s.tasks[0].resultSummary == Some("old") && s.sched == Sending(0, 0)
  }

  const SAW_OLD := NEW_WORKER.(reader := SawResult(false, "old", Some(ByUser)))

  lemma UserTurnEnds() returns (s: State)
    ensures Reachable(s)
    ensures s == State(map[], map[0 := POOLED], map[0 := SAW_OLD], Resting, multiset{}, multiset{})
  {
    s := UserSpawns();
    s := UserSends(s, 0);
    assert [] + [ByUser] == [ByUser] && [ByUser][1..] == [];
    s := WorkerReports(s, 0, "old");
  }

  /** A user's result that arrived before the task was bound completes it: the prompt is not written
      yet.  The exact condition is `Turns.SettlesOwnPromptIff`. */
  lemma StaleResultSettlesNewTask() returns (s: State)
    ensures Reachable(s) && DoneUnprompted(s)
  {
    s := UserTurnEnds();
    s := IdleWorkerIsBound(s, SAW_OLD);
    s := ReaderSettles(s, 0, 0, 3);
  }

  lemma FirstMessageAnswered() returns (s: State)
    ensures Reachable(s)
    ensures s == State(map[], map[0 := POOLED], map[0 := SAW_OLD.(turns := [ByUser])], Resting, multiset{}, multiset{})
  {
    s := UserSpawns();
    s := UserSends(s, 0);
    s := UserSends(s, 0);
    var sent: seq<Turn> := [];
    assert sent + [ByUser] + [ByUser] == [ByUser, ByUser] && [ByUser, ByUser][1..] == [ByUser];
    s := WorkerReports(s, 0, "old");
  }

  lemma SecondMessageUnanswered() returns (s: State)
    ensures Reachable(s)
    ensures s == State(map[], map[0 := POOLED], map[0 := NEW_WORKER.(turns := [ByUser])], Resting,
                       multiset{}, multiset{})
  {
    s := FirstMessageAnswered();
    s := Do(s, Read(0, TakeCurrent));
  }

  /** So does the result of a second message the user had queued, though it arrives after the binding. */
  lemma QueuedTurnSettlesNewTask() returns (s: State)
    ensures Reachable(s) && DoneUnprompted(s)
  {
    s := SecondMessageUnanswered();
    s := IdleWorkerIsBound(s, NEW_WORKER.(turns := [ByUser]));
    s := WorkerReports(s, 0, "old");
    s := ReaderSettles(s, 0, 0, 3);
  }

  lemma PromptFails() returns (s: State)
    ensures Reachable(s)
    ensures s == Only(WORKING.(status := Starting), BOUND, Resting, 1)
                 .(tasks := map[0 := Moved(Started(1), Fail("send failed: " + "broken pipe", 3))])
  {
    s := WorkerIsBound(1);
    UnmannedIsReachable(s);
    s := Do(s, Sched(WriteFails("broken pipe")));
    s := Do(s, Sched(SchedStep.FailTask(3)));
  }

  /** A task whose prompt could not be written has failed, but stays on its session; the user's next
      message completes it. */
  lemma UserTurnSettlesFailedTask() returns (s: State)
    ensures Reachable(s) && 0 in s.tasks
    ensures s.tasks[0].status == Done && s.tasks[0].error == Some("send failed: " + "broken pipe")
    ensures s.tasks[0].resultSummary == Some("hello")
  {
    s := PromptFails();
    s := UserSends(s, 0);
    s := WorkerReports(s, 0, "hello");
    s := ReaderSettles(s, 0, 0, 4);
  }

  // ----- a late busy mark brings a dead worker back into the count -----

  /** A user's message is written to a worker just before its process ends. */
  lemma MessageBeforeDeath() returns (s: State)
    ensures Unmanned(s)
    ensures s == Only(WORKING, PROMPTED.(turns := [ForTask(0), ByUser], alive := false), Resting, 1)
                 .(marks := multiset{0})
  {
    s := WorkerWorks(1);
    assert [ForTask(0)] + [ByUser] == [ForTask(0), ByUser];
    s := DoUnmanned(s, Cmd(WriteTurn(0)));
    s := DoUnmanned(s, Cmd(Die(0)));
  }

  lemma WorkerEnds() returns (s: State)
    ensures Unmanned(s)
    ensures s == Only(WORKING.(status := Completed), ENDED, Resting, 1).(marks := multiset{0})
  {
    s := MessageBeforeDeath();
    s := DoUnmanned(s, Read(0, LeaveLoop(Eof)));
    s := DoUnmanned(s, Read(0, LoadStop));
    s := DoUnmanned(s, Read(0, Finalize(Some(0))));
  }

  lemma NextTaskIsTaken() returns (s: State)
    ensures Unmanned(s) && s.sched == Took(1) && 1 in s.tasks && s.tasks[1].cwd == "dir"
    ensures s.sessions == map[0 := WORKING.(status := Completed)]
    ensures s.workers == map[0 := ENDED] && s.marks == multiset{0}
  {
    s := WorkerEnds();
    s := DoUnmanned(s, Cmd(Enqueue(Job(1, 1), 4)));
    assert ActiveHeadless(s.sessions) == {};
    s := DoUnmanned(s, Sched(Admit(1)));
    s := DoUnmanned(s, Sched(TakeTask(1)));
  }

  /** Under a cap of one and without manual workers: the first worker has ended, the scheduler has spawned
      a second, and the mark owed for the message revives the first.  The exact condition is
      `Capacity.ActiveWithinCapIff`. */
  lemma LateMarkExceedsCap() returns (s: State, late: Step)
    ensures Unmanned(s) && Enabled(s, late) && Managed(late, 1)
    ensures Revives(s, late) && Slots(s) == 1
    ensures |ActiveHeadless(Apply(s, late).sessions)| == 2
  {
    s := NextTaskIsTaken();
    s := DoUnmanned(s, Sched(SpawnFor(1)));
    late := Cmd(MarkBusy(0));
    assert ActiveHeadless(s.sessions) == {1};
    assert ActiveHeadless(Apply(s, late).sessions) == {0, 1};
  }
}
