/** The `tasks` table of the database, and how it follows the tasks in memory. */
module Storage {
  import opened Model
  import opened Machine

  type Rows = map<TaskId, Task>

  /** Insert, or on a conflict of ids rewrite only the listed columns. */
  function Upsert(rows: Rows, t: Task): Rows {
    if t.id !in rows then rows[t.id := t] else
    rows[t.id := rows[t.id].(
      status := t.status, sessionId := t.sessionId, attempts := t.attempts,
      startedAt := t.startedAt, finishedAt := t.finishedAt,
      resultSummary := t.resultSummary, error := t.error)]
  }

  /** The columns an upsert leaves alone on a conflict. */
  predicate SameFixedColumns(a: Task, b: Task) {
    && a.id == b.id && a.prompt == b.prompt && a.cwd == b.cwd && a.model == b.model
    && a.permissionMode == b.permissionMode && a.allowedTools == b.allowedTools
    && a.priority == b.priority && a.maxAttempts == b.maxAttempts && a.createdAt == b.createdAt
  }

  /** An upsert stores the task exactly if and only if the id is new or the columns it does not
      rewrite agree already. */
  lemma UpsertStoresIff(rows: Rows, t: Task)
    ensures t.id in Upsert(rows, t)
    ensures Upsert(rows, t)[t.id] == t <==> (t.id !in rows || SameFixedColumns(rows[t.id], t))
  {}

  /** On a conflict exactly seven columns follow the task; every other column of the row, and every other
      row, stays. */
  lemma UpsertRewritesSeven(rows: Rows, t: Task)
    requires t.id in rows
    ensures var was, now := rows[t.id], Upsert(rows, t)[t.id];
            && now.status == t.status && now.sessionId == t.sessionId && now.attempts == t.attempts
            && now.startedAt == t.startedAt && now.finishedAt == t.finishedAt
            && now.resultSummary == t.resultSummary && now.error == t.error
            && now.id == was.id && now.prompt == was.prompt && now.cwd == was.cwd && now.model == was.model
            && now.permissionMode == was.permissionMode && now.allowedTools == was.allowedTools
            && now.priority == was.priority && now.maxAttempts == was.maxAttempts && now.createdAt == was.createdAt
    ensures Upsert(rows, t).Keys == rows.Keys && forall r :: r in rows && r != t.id ==> Upsert(rows, t)[r] == rows[r]
  {}

  lemma MovesKeepFixedColumns(t: Task, m: Move)
    ensures SameFixedColumns(t, Moved(t, m))
  {}

  /** `take_next_task` does not write the row, so an assigned task is still stored as queued. */
  function Stored(t: Task): Task { if t.status == Assigned then t.(status := Queued) else t }

  predicate RowAgrees(tasks: map<TaskId, Task>, rows: Rows, tid: TaskId) {
    tid in tasks ==> tasks[tid].id == tid && tid in rows && rows[tid] == Stored(tasks[tid])
  }

  ghost predicate Persisted(tasks: map<TaskId, Task>, rows: Rows) {
    forall tid {:trigger RowAgrees(tasks, rows, tid)} :: tid in tasks ==> RowAgrees(tasks, rows, tid)
  }

  /** Which writes to the table in memory are followed by an upsert. */
  predicate Upserts(tasks: map<TaskId, Task>, w: Write) {
    match w
    case NoWrite => false
    case Edit(tid, m) => tid in tasks && !m.Take? && (m.Cancel? ==> tasks[tid].status == Queued)
    case Insert(_, _) => true
  }

  function RowsAfter(tasks: map<TaskId, Task>, rows: Rows, w: Write): Rows {
    if !Upserts(tasks, w) then rows
    else if w.Insert? then Upsert(rows, Enqueued(w.task, w.now))
    else Upsert(rows, Moved(tasks[w.tid], w.m))
  }

  /** A task's id is new to the database, and only queued tasks are taken. */
  predicate CleanWrite(tasks: map<TaskId, Task>, rows: Rows, w: Write) {
    && (w.Insert? ==> w.task.id !in rows)
    && (w.Edit? && w.m.Take? ==> w.tid in tasks ==> tasks[w.tid].status == Queued)
  }

  lemma WriteKeepsRow(tasks: map<TaskId, Task>, rows: Rows, w: Write, tid: TaskId)
    requires RowAgrees(tasks, rows, tid) && CleanWrite(tasks, rows, w)
    requires w.Edit? ==> RowAgrees(tasks, rows, w.tid)
    ensures RowAgrees(WriteTo(tasks, w), RowsAfter(tasks, rows, w), tid)
  {
    if w.Edit? && w.tid in tasks {
      MovesKeepFixedColumns(tasks[w.tid], w.m);
      UpsertStoresIff(rows, Moved(tasks[w.tid], w.m));
    }
  }

  lemma WriteKeepsPersisted(tasks: map<TaskId, Task>, rows: Rows, w: Write)
    requires Persisted(tasks, rows) && CleanWrite(tasks, rows, w)
    ensures Persisted(WriteTo(tasks, w), RowsAfter(tasks, rows, w))
  {
    forall tid | tid in WriteTo(tasks, w) ensures RowAgrees(WriteTo(tasks, w), RowsAfter(tasks, rows, w), tid) {
      WriteKeepsRow(tasks, rows, w, tid);
    }
  }

  // ----- whole runs, each write followed at once by its upsert -----

  predicate NewToDatabase(s: State, run: seq<Step>, rows: Rows)
    requires Legal(s, run)
    decreases |run|
  {
    run != [] ==>
      && (run[0].Cmd? && run[0].c.Enqueue? ==> run[0].c.task.id !in rows)
      && NewToDatabase(Apply(s, run[0]), run[1..], RowsAfter(s.tasks, rows, WriteOf(s, run[0])))
  }

  function RowsOf(s: State, run: seq<Step>, rows: Rows): Rows
    requires Legal(s, run)
    decreases |run|
  {
    if run == [] then rows else
    RowsOf(Apply(s, run[0]), run[1..], RowsAfter(s.tasks, rows, WriteOf(s, run[0])))
  }

  lemma StepIsClean(s: State, step: Step, rows: Rows)
    requires Enabled(s, step) && (step.Cmd? && step.c.Enqueue? ==> step.c.task.id !in rows)
    ensures CleanWrite(s.tasks, rows, WriteOf(s, step))
  {}

  /** Every stored row equals the task in memory, except that an assigned task is stored as queued. */
  lemma {:induction false} RunKeepsPersisted(s: State, run: seq<Step>, rows: Rows)
    requires Legal(s, run) && Persisted(s.tasks, rows) && NewToDatabase(s, run, rows)
    ensures Persisted(Exec(s, run).tasks, RowsOf(s, run, rows))
    decreases |run|
  {
    if run != [] {
      var w := WriteOf(s, run[0]);
      StepIsClean(s, run[0], rows);
      WriteKeepsPersisted(s.tasks, rows, w);
      ApplyWrites(s, run[0]);
      RunKeepsPersisted(Apply(s, run[0]), run[1..], RowsAfter(s.tasks, rows, w));
    }
  }
}
