/** Which prompt a result answers, against which task it settles.  A worker answers its prompts in the
    order they were written; the reader settles whatever task the session holds at that moment. */
module Turns {
  import opened Model
  import opened Machine
  import opened Invariant
  import Kills

  /** Every prompt written to the worker is answered, and its reader is done with the answers. */
  predicate Clear(w: Worker) { w.turns == [] && !w.reader.SawResult? }

  /** The prompt is awaiting its result, or its result is being handled. */
  predicate Awaits(w: Worker, t: Turn) { t in w.turns || (w.reader.SawResult? && w.reader.answers == Some(t)) }

  /** The next result to be credited answers this prompt. */
  predicate NextIs(w: Worker, t: Turn) {
    if w.reader.SawResult? then w.reader.answers == Some(t) else w.turns != [] && w.turns[0] == t
  }

  /** The step writes the task's prompt to a worker that owes no other answer. */
  predicate PromptsClear(s: State, step: Step, tid: TaskId, w: SessionId) {
    step == Sched(WriteOk) && s.sched == Writing(tid, w) && w in s.workers && Clear(s.workers[w])
  }

  /** Somewhere in the run the task's prompt was written to `w` while `w` owed no other answer. */
  predicate PromptedClear(s: State, run: seq<Step>, tid: TaskId, w: SessionId)
    requires Legal(s, run)
    decreases |run|
  {
    run != [] && (PromptsClear(s, run[0], tid, w) || PromptedClear(Apply(s, run[0]), run[1..], tid, w))
  }

  // ----- one task on one worker -----

  /** Started on `w` and not startable again while `w` lives. */
  predicate StartedOn(s: State, tid: TaskId, w: SessionId) {
    tid in s.tasks && s.tasks[tid].sessionId == Some(w) && s.tasks[tid].status !in {Queued, Assigned}
  }

  predicate AboutToPrompt(s: State, tid: TaskId, w: SessionId) {
    s.sched == Sending(tid, w) || s.sched == Writing(tid, w)
  }

  predicate Unprompted(s: State, tid: TaskId, w: SessionId) {
    w in s.workers ==> !Awaits(s.workers[w], ForTask(tid))
  }

  predicate Prompted(s: State, tid: TaskId, w: SessionId, clear: bool) {
    && StartedOn(s, tid, w) && !InHands(s, tid) && !AboutToPrompt(s, tid, w)
    && (w in s.workers && w in s.sessions && s.sessions[w].current == Some(tid) ==>
          (NextIs(s.workers[w], ForTask(tid)) <==> clear))
  }

  predicate Over(s: State, w: SessionId) { w in s.workers && Finalized(s.workers[w]) }

  /** `clear`: the prompt has been written to a worker that owed nothing else. */
  predicate PairOk(s: State, tid: TaskId, w: SessionId, clear: bool) {
    || Over(s, w)
    || (&& (AboutToPrompt(s, tid, w) ==> StartedOn(s, tid, w))
        && ((Unprompted(s, tid, w) && !clear) || Prompted(s, tid, w, clear)))
  }

  lemma OverStays(s: State, step: Step, w: SessionId)
    requires Enabled(s, step) && Over(s, w)
    ensures Over(Apply(s, step), w)
  {
    Kills.StepEvolves(s, step, w);
  }

  lemma SchedKeepsPair(s: State, x: SchedStep, tid: TaskId, w: SessionId, clear: bool)
    requires SchedEnabled(s, x) && SchedOk(s) && PairOk(s, tid, w, clear) && !Over(s, w)
    ensures PairOk(SchedApply(s, x), tid, w, clear || PromptsClear(s, Sched(x), tid, w))
  {
    if OnlySched(x) { MoveKeepsPair(s, x, tid, w, clear); }
  }

  lemma MoveKeepsPair(s: State, x: SchedStep, tid: TaskId, w: SessionId, clear: bool)
    requires OnlySched(x)
    requires SchedEnabled(s, x) && SchedOk(s) && PairOk(s, tid, w, clear) && !Over(s, w)
    ensures PairOk(SchedApply(s, x), tid, w, clear || PromptsClear(s, Sched(x), tid, w))
  {}


  lemma ReadKeepsPair(s: State, v: SessionId, x: ReadStep, tid: TaskId, w: SessionId, clear: bool)
    requires ReadEnabled(s, v, x) && WorkerOk(s, v) && PairOk(s, tid, w, clear) && !Over(s, w)
    ensures PairOk(ReadApply(s, v, x), tid, w, clear)
  {
    if x.Finalize? { VerdictKeepsPair(s, v, x.code, tid, w, clear); }
    else if x.Complete? || x.RecoverTask? { OutcomeKeepsPair(s, v, x, tid, w, clear); }
    else if OnEvent(x) { EventKeepsPair(s, v, x, tid, w, clear); }
  }

  lemma EventKeepsPair(s: State, v: SessionId, x: ReadStep, tid: TaskId, w: SessionId, clear: bool)
    requires OnEvent(x)
    requires ReadEnabled(s, v, x) && WorkerOk(s, v) && PairOk(s, tid, w, clear) && !Over(s, w)
    ensures PairOk(ReadApply(s, v, x), tid, w, clear)
  {}

  lemma VerdictKeepsPair(s: State, v: SessionId, code: Option<int>, tid: TaskId, w: SessionId, clear: bool)
    requires ReadEnabled(s, v, Finalize(code)) && PairOk(s, tid, w, clear) && !Over(s, w)
    ensures PairOk(ReadApply(s, v, Finalize(code)), tid, w, clear)
  {}

  lemma OutcomeKeepsPair(s: State, v: SessionId, x: ReadStep, tid: TaskId, w: SessionId, clear: bool)
    requires x.Complete? || x.RecoverTask?
    requires ReadEnabled(s, v, x) && WorkerOk(s, v) && PairOk(s, tid, w, clear) && !Over(s, w)
    ensures PairOk(ReadApply(s, v, x), tid, w, clear)
  {}

  lemma CmdKeepsPair(s: State, c: Command, tid: TaskId, w: SessionId, clear: bool)
    requires CmdEnabled(s, c) && Fresh(s, Cmd(c)) && PairOk(s, tid, w, clear) && !Over(s, w)
    ensures PairOk(CmdApply(s, c), tid, w, clear)
  {
    if c.Remove? { RemoveKeepsPair(s, c.sid, tid, w, clear); }
    else if c.WriteTurn? { WriteKeepsPair(s, c.sid, tid, w, clear); }
    else if c.Enqueue? || c.CancelTask? || c.FailRemoved? { EditKeepsPair(s, c, tid, w, clear); }
  }

  lemma EditKeepsPair(s: State, c: Command, tid: TaskId, w: SessionId, clear: bool)
    requires c.Enqueue? || c.CancelTask? || c.FailRemoved?
    requires CmdEnabled(s, c) && Fresh(s, Cmd(c)) && PairOk(s, tid, w, clear) && !Over(s, w)
    ensures PairOk(CmdApply(s, c), tid, w, clear)
  {}

  lemma RemoveKeepsPair(s: State, sid: SessionId, tid: TaskId, w: SessionId, clear: bool)
    requires PairOk(s, tid, w, clear) && !Over(s, w)
    ensures PairOk(CmdApply(s, Remove(sid)), tid, w, clear)
  {}

  lemma WriteKeepsPair(s: State, sid: SessionId, tid: TaskId, w: SessionId, clear: bool)
    requires CmdEnabled(s, WriteTurn(sid)) && PairOk(s, tid, w, clear) && !Over(s, w)
    ensures PairOk(CmdApply(s, WriteTurn(sid)), tid, w, clear)
  {}

  lemma StepKeepsPair(s: State, step: Step, tid: TaskId, w: SessionId, clear: bool)
    requires Inv(s) && Enabled(s, step) && Fresh(s, step) && PairOk(s, tid, w, clear)
    ensures PairOk(Apply(s, step), tid, w, clear || PromptsClear(s, step, tid, w))
  {
    if Over(s, w) {
      OverStays(s, step, w);
    } else {
      match step
      case Sched(x) => SchedKeepsPair(s, x, tid, w, clear);
      case Read(v, x) => ReadKeepsPair(s, v, x, tid, w, clear);
      case Cmd(c) => CmdKeepsPair(s, c, tid, w, clear);
    }
  }

  lemma {:induction false} RunKeepsPair(s: State, run: seq<Step>, tid: TaskId, w: SessionId, clear: bool)
    requires Inv(s) && Proper(s, run) && Legal(s, run) && PairOk(s, tid, w, clear)
    ensures PairOk(Exec(s, run), tid, w, clear || PromptedClear(s, run, tid, w))
    decreases |run|
  {
    if run != [] {
      StepKeepsInv(s, run[0]);
      StepKeepsPair(s, run[0], tid, w, clear);
      RunKeepsPair(Apply(s, run[0]), run[1..], tid, w, clear || PromptsClear(s, run[0], tid, w));
    }
  }

  /** The task a result settles is the one whose prompt it answers if and only if that prompt was
      written, and was written while no other answer was owed.  So a result is miscredited exactly when
      the prompt went to a worker with a turn unanswered or not yet settled, or is not written at all:
      still to come, or its write failed. */
  lemma SettlesOwnPromptIff(run: seq<Step>, tid: TaskId, w: SessionId)
    requires Proper(INIT, run)
    ensures Legal(INIT, run)
    ensures var s := Exec(INIT, run);
            OnWorker(s, tid, w) && s.workers[w].reader.SawResult? ==>
              && InCompletion(ReadApply(s, w, TakeCurrent), tid, w)
              && (s.workers[w].reader.answers == Some(ForTask(tid)) <==> PromptedClear(INIT, run, tid, w))
  {
    InitInv();
    ProperIsLegal(INIT, run);
    RunKeepsPair(INIT, run, tid, w, false);
  }

  // ----- workers nobody else talks to -----

  /** No user writes to the worker, and it reports only on what it was asked. */
  predicate Undisturbed(s: State, run: seq<Step>, w: SessionId)
    requires Legal(s, run)
    decreases |run|
  {
    run != [] ==>
      && run[0] != Cmd(WriteTurn(w))
      && (run[0].Read? && run[0].sid == w && run[0].r.ResultEvent? ==> s.workers[w].turns != [])
      && Undisturbed(Apply(s, run[0]), run[1..], w)
  }

  /** The only turn under way is the task's. */
  predicate Sole(w: Worker, tid: TaskId) {
    if w.reader.SawResult? then w.reader.answers == Some(ForTask(tid)) && w.turns == []
    else w.turns == [ForTask(tid)]
  }

  predicate OwnTurns(s: State, w: SessionId) {
    Live(s, w) ==>
      var k, current := s.workers[w], s.sessions[w].current;
      && (Clear(k) || (current.Some? && Sole(k, current.value)))
      && ((s.sched.Sending? || s.sched.Writing?) && s.sched.sid == w ==> Clear(k) && current == Some(s.sched.tid))
  }

  lemma SchedKeepsOwnTurns(s: State, x: SchedStep, w: SessionId)
    requires SchedEnabled(s, x) && SchedOk(s) && OwnTurns(s, w)
    ensures OwnTurns(SchedApply(s, x), w)
  {}

  lemma ReadKeepsOwnTurns(s: State, v: SessionId, x: ReadStep, w: SessionId)
    requires ReadEnabled(s, v, x) && OwnTurns(s, w)
    requires v == w && x.ResultEvent? ==> s.workers[w].turns != []
    ensures OwnTurns(ReadApply(s, v, x), w)
  {
    if OnEvent(x) { EventKeepsOwnTurns(s, v, x, w); }
  }

  lemma EventKeepsOwnTurns(s: State, v: SessionId, x: ReadStep, w: SessionId)
    requires OnEvent(x)
    requires ReadEnabled(s, v, x) && OwnTurns(s, w)
    requires v == w && x.ResultEvent? ==> s.workers[w].turns != []
    ensures OwnTurns(ReadApply(s, v, x), w)
  {}


  lemma CmdKeepsOwnTurns(s: State, c: Command, w: SessionId)
    requires CmdEnabled(s, c) && OwnTurns(s, w) && c != WriteTurn(w) && SchedOk(s)
    ensures OwnTurns(CmdApply(s, c), w)
  {
    if c.Remove? { RemoveKeepsOwnTurns(s, c.sid, w); }
    else if c.WriteTurn? { WriteKeepsOwnTurns(s, c.sid, w); }
  }

  lemma RemoveKeepsOwnTurns(s: State, sid: SessionId, w: SessionId)
    requires OwnTurns(s, w)
    ensures OwnTurns(CmdApply(s, Remove(sid)), w)
  {}

  lemma WriteKeepsOwnTurns(s: State, sid: SessionId, w: SessionId)
    requires CmdEnabled(s, WriteTurn(sid)) && OwnTurns(s, w) && sid != w
    ensures OwnTurns(CmdApply(s, WriteTurn(sid)), w)
  {}

  lemma {:induction false} RunKeepsOwnTurns(s: State, run: seq<Step>, w: SessionId)
    requires Inv(s) && Proper(s, run) && Legal(s, run) && Undisturbed(s, run, w) && OwnTurns(s, w)
    ensures OwnTurns(Exec(s, run), w)
    decreases |run|
  {
    if run != [] {
      match run[0] {
        case Sched(x) => SchedKeepsOwnTurns(s, x, w);
        case Read(v, x) => ReadKeepsOwnTurns(s, v, x, w);
        case Cmd(c) => CmdKeepsOwnTurns(s, c, w);
      }
      StepKeepsInv(s, run[0]);
      RunKeepsOwnTurns(Apply(s, run[0]), run[1..], w);
    }
  }

  /** On a worker that only the scheduler writes to, whatever else interleaves, every result finds the
      task it answers and settles that one. */
  lemma UndisturbedResultsAreCredited(run: seq<Step>, w: SessionId)
    requires Proper(INIT, run) && Legal(INIT, run) && Undisturbed(INIT, run, w)
    ensures var s := Exec(INIT, run);
            Live(s, w) && s.workers[w].reader.SawResult? ==>
              && s.sessions[w].current.Some?
              && s.workers[w].reader.answers == Some(ForTask(s.sessions[w].current.value))
  {
    InitInv();
    RunKeepsOwnTurns(INIT, run, w);
  }
}
