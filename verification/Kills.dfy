/** Stops against crashes: when a worker's end is taken for a crash and its task requeued. */
module Kills {
  import opened Model
  import opened Machine
  import opened Invariant
  import opened Guarantees

  /** The reader saw the stop flag down when it left its loop. */
  predicate Unheeded(r: Reader) {
    || (r.Reaping? && !r.requested)
    || r.Recovering?
    || (r.Finished? && r.verdict.Some? && r.verdict.value != Stopped)
  }

  /** Finalizing this worker can no longer requeue anything. */
  predicate QuietWorker(w: Worker, registered: bool) {
    !w.reader.Recovering? && (registered ==> w.stop && !Unheeded(w.reader))
  }

  predicate Quiet(s: State, w: SessionId) { w in s.workers && QuietWorker(s.workers[w], w in s.sessions) }

  lemma QuietEvolves(a: Worker, b: Worker, before: bool, after: bool)
    requires Evolves(a, b, before) && QuietWorker(a, before) && (after ==> before)
    ensures QuietWorker(b, after)
  {}

  // ----- how one step changes one worker -----

  predicate ReaderMoves(w: Worker, r: Reader, registered: bool) {
    match w.reader
    case Reading => r == Handling || r == Left
    case Handling => r.Reading? || r.SawResult?
    case SawResult(_, _, _) => r.Reading? || r.Completing?
    case Completing(_, _, _) => r.Reading?
    case Left => false
    case Reaping(requested) =>
      || r == Finished(None)
      || (registered && r.Finished? && r.verdict.Some? && (requested <==> r.verdict.value == Stopped))
      || (registered && r.Recovering? && !requested)
    case Recovering(_) => r == Finished(Some(Crashed))
    case Finished(_) => false
  }

  predicate Evolves(a: Worker, b: Worker, registered: bool) {
    || b == a.(last := b.last)
    || b == a.(turns := b.turns)
    || b == a.(alive := false)
    || b == a.(stop := true, stoppedAlive := a.stoppedAlive || a.alive)
    || (a.reader == Left && b == a.(reader := Reaping(a.stop), letGo := a.alive && !a.stop))
    || (b == a.(reader := b.reader, turns := b.turns) && ReaderMoves(a, b.reader, registered))
  }

  lemma SchedEvolves(s: State, x: SchedStep, w: SessionId)
    requires SchedEnabled(s, x) && w in s.workers
    ensures w in SchedApply(s, x).workers
    ensures Evolves(s.workers[w], SchedApply(s, x).workers[w], w in s.sessions)
  {}

  lemma ReadEvolves(s: State, v: SessionId, x: ReadStep, w: SessionId)
    requires ReadEnabled(s, v, x) && w in s.workers
    ensures w in ReadApply(s, v, x).workers
    ensures Evolves(s.workers[w], ReadApply(s, v, x).workers[w], w in s.sessions)
  {
    if v != w { ReadKeepsOthers(s, v, x, w); }
    else if x.Finalize? { VerdictEvolves(s, v, x.code, w); }
    else if OnEvent(x) { EventEvolves(s, v, x, w); }
    else if OnlyReader(x) { MoveEvolves(s, v, x, w); }
  }

  lemma MoveEvolves(s: State, v: SessionId, x: ReadStep, w: SessionId)
    requires OnlyReader(x) && v == w
    requires ReadEnabled(s, v, x) && w in s.workers
    ensures w in ReadApply(s, v, x).workers
    ensures Evolves(s.workers[w], ReadApply(s, v, x).workers[w], w in s.sessions)
  {}

  lemma EventEvolves(s: State, v: SessionId, x: ReadStep, w: SessionId)
    requires OnEvent(x) && v == w
    requires ReadEnabled(s, v, x) && w in s.workers
    ensures w in ReadApply(s, v, x).workers
    ensures Evolves(s.workers[w], ReadApply(s, v, x).workers[w], w in s.sessions)
  {
    if x.ResultEvent? { ResultEvolves(s, v, x, w); }
  }

  lemma ResultEvolves(s: State, v: SessionId, x: ReadStep, w: SessionId)
    requires x.ResultEvent? && v == w
    requires ReadEnabled(s, v, x) && w in s.workers
    ensures w in ReadApply(s, v, x).workers
    ensures Evolves(s.workers[w], ReadApply(s, v, x).workers[w], w in s.sessions)
  {
    ResultAnswers(s, w, x);
    AnsweringEvolves(s.workers[w], x.isError, x.summary, w in s.sessions);
  }

  lemma ResultAnswers(s: State, w: SessionId, x: ReadStep)
    requires x.ResultEvent? && ReadEnabled(s, w, x)
    ensures w in ReadApply(s, w, x).workers
    ensures ReadApply(s, w, x).workers[w] == Answered(s.workers[w], x.isError, x.summary)
  {}

  lemma AnsweringEvolves(k: Worker, isError: bool, summary: string, registered: bool)
    requires k.reader.Handling?
    ensures Evolves(k, Answered(k, isError, summary), registered)
  {}


  lemma ReadKeepsOthers(s: State, v: SessionId, x: ReadStep, w: SessionId)
    requires ReadEnabled(s, v, x) && w in s.workers && w != v
    ensures w in ReadApply(s, v, x).workers && ReadApply(s, v, x).workers[w] == s.workers[w]
  {}

  lemma VerdictEvolves(s: State, v: SessionId, code: Option<int>, w: SessionId)
    requires ReadEnabled(s, v, Finalize(code)) && w in s.workers
    ensures Evolves(s.workers[w], ReadApply(s, v, Finalize(code)).workers[w], w in s.sessions)
  {}

  lemma CmdEvolves(s: State, c: Command, w: SessionId)
    requires CmdEnabled(s, c) && w in s.workers
    ensures w in CmdApply(s, c).workers
    ensures Evolves(s.workers[w], CmdApply(s, c).workers[w], w in s.sessions)
  {}

  lemma StepEvolves(s: State, step: Step, w: SessionId)
    requires Enabled(s, step) && w in s.workers
    ensures w in Apply(s, step).workers
    ensures Evolves(s.workers[w], Apply(s, step).workers[w], w in s.sessions)
  {
    match step
    case Sched(x) => SchedEvolves(s, x, w);
    case Read(v, x) => ReadEvolves(s, v, x, w);
    case Cmd(c) => CmdEvolves(s, c, w);
  }

  /** A session id is registered once at most. */
  lemma StaysUnregistered(s: State, step: Step, w: SessionId)
    requires Enabled(s, step) && w in s.workers && w !in s.sessions
    ensures w !in Apply(s, step).sessions
  {
    match step
    case Sched(_) =>
    case Read(v, x) => ReadRegistersNone(s, v, x);
    case Cmd(_) =>
  }

  lemma ReadRegistersNone(s: State, v: SessionId, x: ReadStep)
    requires ReadEnabled(s, v, x)
    ensures ReadApply(s, v, x).sessions.Keys == s.sessions.Keys
  {}

  lemma NewWorker(s: State, step: Step, w: SessionId)
    requires Enabled(s, step) && w !in s.workers && w in Apply(s, step).workers
    ensures Apply(s, step).workers[w] == NEW_WORKER
  {
    match step
    case Sched(x) => SchedNewWorker(s, x, w);
    case Read(_, _) =>
    case Cmd(c) => CmdNewWorker(s, c, w);
  }

  lemma SchedNewWorker(s: State, x: SchedStep, w: SessionId)
    requires SchedEnabled(s, x) && w !in s.workers && w in SchedApply(s, x).workers
    ensures SchedApply(s, x).workers[w] == NEW_WORKER
  {}

  lemma CmdNewWorker(s: State, c: Command, w: SessionId)
    requires CmdEnabled(s, c) && w !in s.workers && w in CmdApply(s, c).workers
    ensures CmdApply(s, c).workers[w] == NEW_WORKER
  {}

  // ----- stop against crash -----

  predicate Requeues(step: Step, w: SessionId) { step.Read? && step.sid == w && step.r.RecoverTask? }

  lemma QuietStays(s: State, step: Step, w: SessionId)
    requires Enabled(s, step) && Quiet(s, w)
    ensures Quiet(Apply(s, step), w) && !Requeues(step, w)
  {
    var s' := Apply(s, step);
    StepEvolves(s, step, w);
    if w !in s.sessions { StaysUnregistered(s, step, w); }
    QuietEvolves(s.workers[w], s'.workers[w], w in s.sessions, w in s'.sessions);
  }

  /** Once a stop is stored before the reader loads the flag, or the session is removed before its
      reader finalizes it, no interleaving lets that worker requeue or fail a task as crashed. */
  lemma {:induction false} StoppedIsNeverCrashed(s: State, run: seq<Step>, w: SessionId)
    requires Legal(s, run) && Quiet(s, w)
    ensures Quiet(Exec(s, run), w)
    ensures forall i :: 0 <= i < |run| ==> !Requeues(run[i], w)
    decreases |run|
  {
    if run != [] {
      QuietStays(s, run[0], w);
      StoppedIsNeverCrashed(Apply(s, run[0]), run[1..], w);
      forall i | 0 <= i < |run| ensures !Requeues(run[i], w) {
        if i > 0 { assert run[i] == run[1..][i - 1]; }
      }
    }
  }

  /** The part of the stop flag's history that decides the verdict. */
  predicate Decided(w: Worker, requested: bool) {
    !BeforeLoad(w.reader) &&
    if requested then !Unheeded(w.reader) else Unheeded(w.reader) || w.reader == Finished(None)
  }

  lemma DecidedStays(s: State, step: Step, w: SessionId, requested: bool)
    requires Enabled(s, step) && w in s.workers && Decided(s.workers[w], requested)
    ensures w in Apply(s, step).workers && Decided(Apply(s, step).workers[w], requested)
  {
    StepEvolves(s, step, w);
  }

  lemma {:induction false} DecidedForever(s: State, run: seq<Step>, w: SessionId, requested: bool)
    requires Legal(s, run) && w in s.workers && Decided(s.workers[w], requested)
    ensures w in Exec(s, run).workers && Decided(Exec(s, run).workers[w], requested)
    decreases |run|
  {
    if run != [] {
      DecidedStays(s, run[0], w, requested);
      DecidedForever(Apply(s, run[0]), run[1..], w, requested);
    }
  }

  /** A finalized, still registered session ended `Stopped` if and only if the stop was stored
      before its reader loaded the flag. */
  lemma VerdictIsTheLoad(s: State, run: seq<Step>, w: SessionId)
    requires w in s.workers && s.workers[w].reader == Left
    requires Legal(s, [Read(w, LoadStop)] + run)
    ensures var s' := Exec(s, [Read(w, LoadStop)] + run);
            && w in s'.workers
            && (s'.workers[w].reader.Finished? && s'.workers[w].reader.verdict.Some? ==>
                  (s'.workers[w].reader.verdict == Some(Stopped) <==> s.workers[w].stop))
  {
    var all := [Read(w, LoadStop)] + run;
    var s1 := Apply(s, all[0]);
    assert all[1..] == run;
    DecidedForever(s1, run, w, s.workers[w].stop);
  }

  /** Finalizing leads to recovery exactly when no stop was requested, the exit code is unknown or not
      zero, and the session is still registered and holds a task; a removed session finalizes without
      touching anything but its reader. */
  lemma RecoversIff(s: State, w: SessionId, code: Option<int>)
    requires ReadEnabled(s, w, Finalize(code))
    ensures var s', requested := ReadApply(s, w, Finalize(code)), s.workers[w].reader.requested;
            && (s'.workers[w].reader.Recovering? <==>
                  !requested && code != Some(0) && w in s.sessions && s.sessions[w].current.Some?)
            && (s'.workers[w].reader.Recovering? ==> Some(s'.workers[w].reader.tid) == s.sessions[w].current)
            && s'.tasks == s.tasks && s'.sched == s.sched && s'.fails == s.fails
            && (w !in s.sessions ==> s'.sessions == s.sessions)
  {}

  /** What finalization and, if it comes to that, recovery make of a state. */
  function Ended(s: State, w: SessionId, code: Option<int>, autoRestart: bool, now: int): State
    requires ReadEnabled(s, w, Finalize(code))
  {
    var s1 := ReadApply(s, w, Finalize(code));
    if s1.workers[w].reader.Recovering? then ReadApply(s1, w, RecoverTask(s1.workers[w].reader.tid, autoRestart, now))
    else s1
  }

  /** The end of a session puts the task it holds back into the queue exactly when no stop was seen, the
      exit code is not zero, restart is on and an attempt is left; otherwise nobody can run it any more. */
  lemma EndRequeuesIff(s: State, w: SessionId, tid: TaskId, code: Option<int>, autoRestart: bool, now: int)
    requires Reachable(s) && OnWorker(s, tid, w) && ReadEnabled(s, w, Finalize(code))
    ensures tid in s.tasks
    ensures var s' := Ended(s, w, code, autoRestart, now);
            var again := && !s.workers[w].reader.requested && code != Some(0)
                         && autoRestart && s.tasks[tid].attempts < s.tasks[tid].maxAttempts;
            && tid in s'.tasks && (s'.tasks[tid].status == Queued <==> again)
            && Places(s', tid) == if again then {InQueue} else {}
  {
    ReachableInv(s);
    HeldByWorkerIsLinked(s, tid, w);
    RecoversIff(s, w, code);
    var s1 := ReadApply(s, w, Finalize(code));
    if s1.workers[w].reader.Recovering? {
      ReachableStep(s, Read(w, Finalize(code)));
      RecoveryRequeuesIff(s1, w, tid, autoRestart, now);
    } else {
      forall p ensures p !in Places(s1, tid) {
        PlacesAreHolds(s1, tid, p);
        GivenUpElsewhere(s, w, tid, code, p);
      }
    }
  }

  lemma GivenUpElsewhere(s: State, w: SessionId, tid: TaskId, code: Option<int>, p: Place)
    requires Inv(s) && OnWorker(s, tid, w) && ReadEnabled(s, w, Finalize(code))
    requires !ReadApply(s, w, Finalize(code)).workers[w].reader.Recovering?
    ensures !Holds(ReadApply(s, w, Finalize(code)), tid, p)
  {
    if Holds(ReadApply(s, w, Finalize(code)), tid, p) {
      assert p != AtWorker(w) && Holds(s, tid, p);
      HeldOnce(s, tid, p, AtWorker(w));
    }
  }

  // ----- kill against the death of the process -----

  /** The stop flag is up and no load of it came too early. */
  predicate Heeding(w: Worker) { w.stop && !Unheeded(w.reader) }

  lemma VerdictStays(s: State, step: Step, w: SessionId, heeded: bool)
    requires Enabled(s, step) && w in s.workers
    requires if heeded then Heeding(s.workers[w]) else Decided(s.workers[w], false)
    ensures w in Apply(s, step).workers
    ensures if heeded then Heeding(Apply(s, step).workers[w]) else Decided(Apply(s, step).workers[w], false)
  {
    StepEvolves(s, step, w);
    VerdictEvolvesOn(s.workers[w], Apply(s, step).workers[w], w in s.sessions, heeded);
  }

  lemma VerdictEvolvesOn(a: Worker, b: Worker, registered: bool, heeded: bool)
    requires Evolves(a, b, registered) && if heeded then Heeding(a) else Decided(a, false)
    ensures if heeded then Heeding(b) else Decided(b, false)
  {}

  lemma {:induction false} VerdictSettled(s: State, run: seq<Step>, w: SessionId, heeded: bool)
    requires Legal(s, run) && w in s.workers
    requires if heeded then Heeding(s.workers[w]) else Decided(s.workers[w], false)
    ensures w in Exec(s, run).workers
    ensures if heeded then Heeding(Exec(s, run).workers[w]) else Decided(Exec(s, run).workers[w], false)
    decreases |run|
  {
    if run != [] {
      VerdictStays(s, run[0], w, heeded);
      VerdictSettled(Apply(s, run[0]), run[1..], w, heeded);
    }
  }

  /** A kill is heeded exactly when the reader had not already found the flag down for the last time,
      whether the process still lives or not: then, and only then, does every continuation that writes
      a verdict for the session end it `Stopped`. */
  lemma KillEndsStoppedIff(s: State, run: seq<Step>, w: SessionId)
    requires w in s.workers && w in s.sessions && Legal(s, [Cmd(Kill(w))] + run)
    ensures var s' := Exec(s, [Cmd(Kill(w))] + run);
            && w in s'.workers
            && (s'.workers[w].reader.Finished? && s'.workers[w].reader.verdict.Some? ==>
                  (s'.workers[w].reader.verdict == Some(Stopped) <==> !Unheeded(s.workers[w].reader)))
  {
    var all := [Cmd(Kill(w))] + run;
    assert all[1..] == run;
    VerdictSettled(Apply(s, all[0]), run, w, !Unheeded(s.workers[w].reader));
  }

  // ----- removal -----

  lemma StopStays(s: State, step: Step, w: SessionId)
    requires Enabled(s, step) && w in s.workers && s.workers[w].stop
    ensures w in Apply(s, step).workers && Apply(s, step).workers[w].stop
    ensures step != Read(w, NextLine)
  {
    StepEvolves(s, step, w);
  }

  lemma {:induction false} StopHolds(s: State, run: seq<Step>, w: SessionId)
    requires Legal(s, run) && w in s.workers && s.workers[w].stop
    ensures w in Exec(s, run).workers && Exec(s, run).workers[w].stop
    ensures forall i :: 0 <= i < |run| ==> run[i] != Read(w, NextLine)
    decreases |run|
  {
    if run != [] {
      StopStays(s, run[0], w);
      StopHolds(Apply(s, run[0]), run[1..], w);
      forall i | 0 <= i < |run| ensures run[i] != Read(w, NextLine) {
        if i > 0 { assert run[i] == run[1..][i - 1]; }
      }
    }
  }

  /** A live session that is removed has its stop stored from then on: its reader takes up no further line
      in any continuation, and the session is never registered again. */
  lemma RemovedIsStopped(s: State, run: seq<Step>, w: SessionId)
    requires Reachable(s) && Live(s, w) && Legal(s, [Cmd(Remove(w))] + run)
    ensures var s' := Exec(s, [Cmd(Remove(w))] + run);
            w in s'.workers && s'.workers[w].stop && w !in s'.sessions
    ensures forall i :: 0 <= i < |run| ==> run[i] != Read(w, NextLine)
  {
    var all := [Cmd(Remove(w))] + run;
    assert all[1..] == run;
    ReachableInv(s);
    assert WorkerOk(s, w);
    StopHolds(Apply(s, all[0]), run, w);
    StaysGone(Apply(s, all[0]), run, w);
  }

  lemma {:induction false} StaysGone(s: State, run: seq<Step>, w: SessionId)
    requires Legal(s, run) && w in s.workers && w !in s.sessions
    ensures w !in Exec(s, run).sessions
    decreases |run|
  {
    if run != [] {
      StaysUnregistered(s, run[0], w);
      StepEvolves(s, run[0], w);
      StaysGone(Apply(s, run[0]), run[1..], w);
    }
  }

  predicate DeathOk(w: Worker) {
    && (w.stoppedAlive ==> w.stop)
    && (BeforeLoad(w.reader) ==> !w.letGo)
    && (Unheeded(w.reader) && (w.alive || w.stoppedAlive) ==> w.letGo)
    && (w.letGo ==> Unheeded(w.reader) || w.reader == Finished(None))
  }

  lemma DeathEvolves(a: Worker, b: Worker, registered: bool)
    requires Evolves(a, b, registered) && DeathOk(a)
    ensures DeathOk(b)
  {}

  lemma StepKeepsDeathOk(s: State, step: Step, w: SessionId)
    requires Enabled(s, step)
    requires w in s.workers ==> DeathOk(s.workers[w])
    ensures w in Apply(s, step).workers ==> DeathOk(Apply(s, step).workers[w])
  {
    if w in s.workers {
      StepEvolves(s, step, w);
      DeathEvolves(s.workers[w], Apply(s, step).workers[w], w in s.sessions);
    } else if w in Apply(s, step).workers {
      NewWorker(s, step, w);
    }
  }

  lemma {:induction false} RunKeepsDeathOk(s: State, run: seq<Step>, w: SessionId)
    requires Legal(s, run)
    requires w in s.workers ==> DeathOk(s.workers[w])
    ensures w in Exec(s, run).workers ==> DeathOk(Exec(s, run).workers[w])
    decreases |run|
  {
    if run != [] {
      StepKeepsDeathOk(s, run[0], w);
      RunKeepsDeathOk(Apply(s, run[0]), run[1..], w);
    }
  }

  /** Over all runs: a session whose stop was stored while its process lived ends `Stopped` if and only
      if its reader had not let go of a living process, that is, left its loop at the end of the output
      or on a read error and found the flag down, with the process still running. */
  lemma KilledAliveEndsStoppedIff(run: seq<Step>, w: SessionId)
    requires Legal(INIT, run) && w in Exec(INIT, run).workers
    ensures var k := Exec(INIT, run).workers[w];
            k.stoppedAlive && k.reader.Finished? && k.reader.verdict.Some? ==>
              (k.reader.verdict == Some(Stopped) <==> !k.letGo)
  {
    RunKeepsDeathOk(INIT, run, w);
  }

  /** Output ends, by end of file or a read error, only after the process has. */
  predicate OutputEndsLast(s: State, run: seq<Step>, w: SessionId)
    requires Legal(s, run)
    decreases |run|
  {
    run != [] ==>
      && (run[0].Read? && run[0].sid == w && run[0].r.LeaveLoop? && !run[0].r.why.StopSeen? ==> !s.workers[w].alive)
      && OutputEndsLast(Apply(s, run[0]), run[1..], w)
  }

  lemma {:induction false} NeverLetsGo(s: State, run: seq<Step>, w: SessionId)
    requires Legal(s, run) && OutputEndsLast(s, run, w)
    requires w in s.workers ==> HoldsOn(s.workers[w])
    ensures w in Exec(s, run).workers ==> HoldsOn(Exec(s, run).workers[w])
    decreases |run|
  {
    if run != [] {
      StepHoldsOn(s, run[0], w);
      NeverLetsGo(Apply(s, run[0]), run[1..], w);
    }
  }

  predicate HoldsOn(w: Worker) { !w.letGo && (w.reader == Left ==> w.stop || !w.alive) }

  lemma StepHoldsOn(s: State, step: Step, w: SessionId)
    requires Enabled(s, step)
    requires step.Read? && step.sid == w && step.r.LeaveLoop? && !step.r.why.StopSeen? ==> !s.workers[w].alive
    requires w in s.workers ==> HoldsOn(s.workers[w])
    ensures w in Apply(s, step).workers ==> HoldsOn(Apply(s, step).workers[w])
  {
    if w in s.workers {
      StepEvolves(s, step, w);
      if Apply(s, step).workers[w].reader == Left { LeavesByItsOwnStep(s, step, w); }
    } else if w in Apply(s, step).workers {
      NewWorker(s, step, w);
    }
  }

  lemma LeavesByItsOwnStep(s: State, step: Step, w: SessionId)
    requires Enabled(s, step) && w in s.workers
    requires w in Apply(s, step).workers && Apply(s, step).workers[w].reader == Left
    ensures s.workers[w].reader == Left || (step.Read? && step.sid == w && step.r.LeaveLoop?)
  {
    match step
    case Sched(x) => SchedKeepsReader(s, x, w);
    case Read(v, x) => if v == w { ReadLeaves(s, w, x); } else { ReadKeepsOthers(s, v, x, w); }
    case Cmd(c) => CmdKeepsReader(s, c, w);
  }

  lemma SchedKeepsReader(s: State, x: SchedStep, w: SessionId)
    requires SchedEnabled(s, x) && w in s.workers
    ensures SchedApply(s, x).workers[w].reader == s.workers[w].reader
  {}

  lemma ReadLeaves(s: State, w: SessionId, x: ReadStep)
    requires ReadEnabled(s, w, x) && w in ReadApply(s, w, x).workers && ReadApply(s, w, x).workers[w].reader == Left
    ensures x.LeaveLoop?
  {
    if !x.LeaveLoop? { NeverLeft(s, w, x); }
  }

  lemma NeverLeft(s: State, w: SessionId, x: ReadStep)
    requires ReadEnabled(s, w, x) && !x.LeaveLoop?
    ensures w in ReadApply(s, w, x).workers && ReadApply(s, w, x).workers[w].reader != Left
  {}

  lemma CmdKeepsReader(s: State, c: Command, w: SessionId)
    requires CmdEnabled(s, c) && w in s.workers
    ensures CmdApply(s, c).workers[w].reader == s.workers[w].reader
  {}

  /** So where a worker's output never ends before its process, no kill of a living one is missed. */
  lemma KilledAliveEndsStopped(run: seq<Step>, w: SessionId)
    requires Legal(INIT, run) && w in Exec(INIT, run).workers && OutputEndsLast(INIT, run, w)
    ensures var k := Exec(INIT, run).workers[w];
            k.stoppedAlive && k.reader.Finished? && k.reader.verdict.Some? ==> k.reader.verdict == Some(Stopped)
  {
    KilledAliveEndsStoppedIff(run, w);
    NeverLetsGo(INIT, run, w);
  }
}
