# Verification of the orchestrator core

A Dafny 4.11 model of the orchestrator behind the multi-session dashboard: the task queue, the
scheduler, the worker sessions with their reader threads, crash recovery, attach and replay, the
stream-json line protocol and the `tasks` table. `dafny verify dfyconfig.toml` checks all of it.

## What is modelled

- `Model` holds the records and every change a task's record goes through (`Moved`).
- `Machine` is the concurrent protocol. Each lock section of the scheduler thread, of every reader
  thread and of every command is one atomic step, and each thread has explicit program points between
  its sections: after `take_next_task`, between the two halves of `assign_task_to_session`, around
  the write to stdin, between `current_task.take()` and the task write, between leaving the read loop,
  loading the stop flag, writing the verdict and recovering the task, between `remove` and its
  `fail_task`, and between a user's write and its busy mark. `Invariant` is the inductive invariant;
  `Guarantees`, `Overtaking`, `Turns`, `Kills`, `Capacity` and `Monitor` prove what follows over whole
  interleaved runs.
- `Races` holds reachable states in which a guarantee one might expect fails. Each has its exact
  condition proved for all runs:
  - a reused task id gets a second execution token, exactly when somebody other than the queue has the
    old one (`Guarantees.EnqueueKeepsTokenIff`, over whole runs `Guarantees.SingleTokenIff`);
  - the result of a user's message can complete a task that was bound to the worker meanwhile, whether it
    arrived before or after the binding, and even a task whose own prompt could not be written; a result
    settles the task whose prompt it answers exactly when that prompt was written while the worker owed no
    other answer (`Turns.SettlesOwnPromptIff`), which is always so on a worker that only the scheduler
    writes to and that reports only when asked (`Turns.UndisturbedResultsAreCredited`);
  - a kill is recorded as a crash, and the task queued again, when the output of the living process ended
    first, at end of file or on a read error, and the reader found the stop flag down; a kill is heeded
    exactly when that last look at the flag is still to come (`Kills.KillEndsStoppedIff`,
    `Kills.KilledAliveEndsStoppedIff`, `Kills.VerdictIsTheLoad`);
  - a message written just before a worker ends marks it busy after its end, and it then counts as active
    for good, so the count can pass the cap the documentation calls a maximum; the slots in use stay
    within the cap exactly unless such a mark revives an ended session when all of them are in use
    (`Capacity.ActiveWithinCapIff`; for the count alone, `Capacity.CountWithinCapIff`).
- `Orchestrator.Core` is the core as an object with real loops: `Tick`, `TakeNextTask`,
  `FindIdleSession`, `AssignTaskToSession`, `Attach`, a reader thread from its first line to its verdict
  (`RunHeadlessStdout`) and the rest, each run to its end. Its `Valid` says that the object's state is
  reachable in the machine, so every theorem about the machine holds of it, and also that the database
  and the attach flags agree with memory. Each session's ring appears there by its contents.
- `Ring` is the scrollback ring over a circular array, `Replay` the race between a terminal's reader
  and `attach`, `AttachLru` the list of attached panes, `Storage` the upsert, `Json` and `StreamJson`
  the line protocol (string escaping after section 7 and numbers after section 6 of RFC 8259).

Assumptions: a new task carries a new id and no attempts, as `src/main.ts` sends it (`Machine.Fresh`);
session ids are never reused; there is one scheduler thread; `attach`, `detach` and `remove` do not
overlap each other where the attach list is concerned. Where `Turns` says which prompt a result answers,
a worker answers its prompts one by one in the order they were written. Process start, writes, ends of
output, exits, exit codes, clock values and map iteration order are arbitrary. The token counters wrap
at 64 bits, as release builds do. The attach cap is clamped to 1..16 as in the code, where a comment on
the field says 1-4.

## Model

| member | source | states |
|---|---|---|
| Invariant.StepKeepsInv | src-tauri/src/core.rs:492-601 | Every lock section of every thread keeps the invariant tying queue, scheduler, sessions and reader threads together. |
| Invariant.RunKeepsInv | src-tauri/src/core.rs:784-948 | The invariant holds at the end of every interleaved run of scheduler, readers and commands. |
| Guarantees.SingleToken | src-tauri/src/core.rs:881-930 | In every reachable state the places from which a task can be run (queue, scheduler, live worker, pending completion, pending recovery) number at most one. |
| Guarantees.EnqueueKeepsTokenIff | src-tauri/src/core.rs:823-837 | An enqueue under any id leaves one token exactly when only the queue, if anybody, has that id. |
| Guarantees.SingleTokenIff | src-tauri/src/core.rs:823-837 | In every run whose enqueued tasks carry no attempts, under new or reused ids, every task has a single token throughout if and only if no id is enqueued while somebody other than the queue has it. |
| Guarantees.ChosenWorkerFits | src-tauri/src/core.rs:894-906 | At the step that settles on a worker, found or spawned, the worker is headless, in the task's directory and on its model, and holds no task; a found one was idle. |
| Guarantees.RunsOnItsModel | src-tauri/src/scheduler.rs:54-68 | In every reachable state a session that holds a task, live or over, is headless and was started for that task's model. |
| Guarantees.TwoWayLink | src-tauri/src/core.rs:909-926 | A live worker holding a task is the session the task names and the one it was last started on; the task is running or failed. |
| Guarantees.RetryBound | src-tauri/src/core.rs:575-594 | Attempts never exceed max(1, max_attempts), and a queued or taken task has an attempt left, even if a stale removal failed it meanwhile. |
| Guarantees.NothingDangles | src-tauri/src/core.rs:784-806 | Every running task is answered for by its session, a pending completion, recovery or failure, or the scheduler; an assigned one is with the scheduler. |
| Guarantees.AttemptsCountStarts | src-tauri/src/core.rs:912-918 | Over any run the attempts counter grows by exactly the number of starts; it never wraps. |
| Guarantees.OutcomesAreOwed | src-tauri/src/core.rs:492-515 | Over any run completions and recoveries of a task never outnumber its starts. |
| Guarantees.StartedAndSettledWithinLimit | src-tauri/src/core.rs:575-594 | From the empty orchestrator, outcomes are at most starts, and starts at most max(1, max_attempts). |
| Guarantees.ResultIsCredited | src-tauri/src/core.rs:500-515 | A completion ends a task that names the reporting worker, done or failed as reported, with the reported text, touches no other task and leaves no token behind. |
| Guarantees.RecoveryRequeuesIff | src-tauri/src/core.rs:575-594 | After a crash the interrupted task is in the queue and nowhere else exactly when automatic restart is on and an attempt is left; otherwise it has failed and nothing can run it again. |
| Turns.SettlesOwnPromptIff | src-tauri/src/core.rs:467-500 | In every run the task a result settles is the one whose prompt it answers if and only if that prompt was written while the worker owed no other answer. |
| Turns.UndisturbedResultsAreCredited | src-tauri/src/core.rs:909-930 | On a worker that only the scheduler writes to and that reports only while a prompt is outstanding, every result finds the task it answers and settles that one, whatever else interleaves. |
| Overtaking.StepSpends | src-tauri/src/core.rs:881-930 | No step raises the number of times a task can still be taken, and taking it spends one. |
| Overtaking.BoundedOvertaking | src-tauri/src/scheduler.rs:37-69 | Without new enqueues a queued task is passed over at most as often as the tasks ranking at or above it have attempts left in sum. |
| Overtaking.TakesAreBounded | src-tauri/src/core.rs:575-594 | In every run without enqueues, whatever crashes, the scheduler takes at most as many tasks as there are attempts left in sum. |
| Overtaking.OverIsOver | src-tauri/src/core.rs:881-930 | A task that no place holds is never taken or started again in any continuation. |
| Overtaking.CanceledIsOver | src-tauri/src/core.rs:845-860 | A queued task that is canceled is out of the queue, with the time, and no continuation ever takes or starts it. |
| Kills.StoppedIsNeverCrashed | src-tauri/src/core.rs:771-799 | Once a stop is stored before the reader loads the flag, or the session is removed before it is finalized, no interleaving requeues or fails a task as crashed through it. |
| Kills.VerdictIsTheLoad | src-tauri/src/core.rs:329-351 | A registered session ends stopped if and only if the stop was stored before its reader loaded the flag. |
| Kills.KillEndsStoppedIff | src-tauri/src/core.rs:771-780 | After a kill, of a living process or not, every run that writes a verdict ends the session stopped if and only if the reader had not already found the flag down for the last time. |
| Kills.KilledAliveEndsStoppedIff | src-tauri/src/core.rs:329-351 | In every run a session stopped while its process lived ends stopped if and only if its reader had not let go of a living process, at the end of its output, with the flag down. |
| Kills.KilledAliveEndsStopped | src-tauri/src/core.rs:527-563 | Where a worker's output never ends before its process, no kill of a living one is taken for a crash or a completion. |
| Kills.EndRequeuesIff | src-tauri/src/core.rs:538-601 | The end of a session puts its task back into the queue exactly when no stop was seen, the exit code is not zero, restart is on and an attempt is left; otherwise nobody can run the task any more. |
| Kills.RemovedIsStopped | src-tauri/src/core.rs:784-808 | A live session that is removed has its stop stored from then on: its reader takes up no further line in any continuation, and it is never registered again. |
| Capacity.CapHolds | src-tauri/src/scheduler.rs:37-69 | In every interleaving under a fixed cap and without manual workers the live headless workers stay within the cap. |
| Capacity.LiveAreActive | src-tauri/src/model.rs:60-69 | The active headless sessions are exactly the live ones and the ended ones that stand at busy. |
| Capacity.StepKeepsSlotsIff | src-tauri/src/core.rs:617-625 | A step from within the cap stays within it exactly unless it is a busy mark on a terminal session when every slot is in use. |
| Capacity.ActiveWithinCapIff | src-tauri/src/core.rs:872-878 | In every run under a fixed cap without manual workers the active count, with the slot the scheduler holds, stays within the cap throughout if and only if no busy mark revives an ended session when all slots are in use. |
| Capacity.CountWithinCapIff | src-tauri/src/scheduler.rs:37-41 | In every such run the active count itself stays within the cap throughout if and only if no worker is spawned or revived when it is at the cap. |
| Races.ReusedIdDoublesToken | src-tauri/src/core.rs:823-830 | A reachable state in which enqueuing an id in the scheduler's hands gives it two tokens. |
| Races.StaleResultSettlesNewTask | src-tauri/src/core.rs:894-906 | A reachable state in which a user's result, arrived before the task was bound, has completed a task whose prompt is not yet written. |
| Races.QueuedTurnSettlesNewTask | src-tauri/src/core.rs:492-499 | The same for the result of a second message the user had queued, arrived after the binding. |
| Races.UserTurnSettlesFailedTask | src-tauri/src/core.rs:926-929 | A reachable state in which a task failed because its prompt could not be written is done, with the text of a user's answer. |
| Races.KillAfterOutputIsACrash | src-tauri/src/core.rs:337-350 | A reachable state in which a session killed while alive has ended as crashed and its task is queued again, after the end of its output or a read error. |
| Races.LateMarkExceedsCap | src-tauri/src/core.rs:622-625 | A state reachable under a cap of one without manual workers, from which a late busy mark makes two workers active. |
| Monitor.UsageIsReported | src-tauri/src/core.rs:468-483 | A registered session's counters are, modulo 2^64, the sums its results reported over the run. |
| Monitor.Aggregate | src-tauri/src/monitor.rs:27-50 | The aggregation loop returns the active count, the session count and the sum of all token totals. |
| Monitor.MonitorCountsResults | src-tauri/src/monitor.rs:27-50 | What the monitor shows is the sum of the four counters over all results of the registered sessions, exactly so below 2^64. |
| Orchestrator.Core.EnqueueTask | src-tauri/src/core.rs:823-837 | The task is queued with the time and otherwise as sent; its row equals it exactly when the id is new to the database or the columns an upsert leaves alone agree; a fresh task keeps every invariant. |
| Orchestrator.Core.CancelTask | src-tauri/src/core.rs:845-860 | A queued task becomes canceled with the time, its row likewise; in every other case, and for every other task, nothing changes. |
| Orchestrator.Core.CountActiveHeadless | src-tauri/src/core.rs:872-878 | The count is the number of headless sessions that are starting, idle or busy. |
| Orchestrator.Core.TakeNextTask | src-tauri/src/core.rs:881-891 | Takes a queued task nothing queued outranks and marks it assigned, or finds the queue empty. |
| Orchestrator.Core.FindIdleSession | src-tauri/src/core.rs:894-906 | Finds an idle headless worker without a task in the same directory and on the same model, and none only if there is none. |
| Orchestrator.Core.AssignTaskToSession | src-tauri/src/core.rs:909-930 | The task runs on the session, with one attempt more and the time, and the session holds it, busy; if the session is gone or the write fails, the task has failed with that error. Nothing else changes. |
| Orchestrator.Core.PlaceTask | src-tauri/src/scheduler.rs:46-68 | A worker is reused exactly when pooling is on and some headless session is idle, free, in the task's directory and on its model; the task runs on a session in its own context exactly when the write, and the spawn if one was needed, succeed, and has failed otherwise. |
| Orchestrator.Core.SpawnHeadless | src-tauri/src/scheduler.rs:54-68 | Unless the process does not start, a new headless session is registered in the task's directory and on its model, starting, with empty counters and no task. |
| Orchestrator.Core.Tick | src-tauri/src/scheduler.rs:22-70 | The loop ends; every taken task runs, in its own context, on a session that was idle and free or is new, or has failed, and if every spawn and write succeeds none fails; no other session changes, none is left assigned, no task left queued outranks a taken one, and unless throttled the queue is empty or the cap reached. |
| Orchestrator.NextTiesWithList | src-tauri/src/core.rs:839-843 | The task taken next ties with the first queued entry of the list shown to the user. |
| Orchestrator.Core.ListTasks | src-tauri/src/core.rs:839-843 | Returns every task once, by descending priority and then by age. |
| Orchestrator.Core.NoteResult | src-tauri/src/core.rs:460-483 | A result adds its counters to the session and makes it idle. |
| Orchestrator.Core.OnTurnComplete | src-tauri/src/core.rs:492-523 | The session's task, if any, is released and settled with the result. |
| Orchestrator.Core.OnHeadlessEvent | src-tauri/src/core.rs:410-489 | The handshake sets the directory and ends the start, a message makes the session busy, a result adds its counters, makes it idle and settles the task held, failed or done as it says and with its answer; every other event, session and task stays as it is. |
| Orchestrator.Core.OnLine | src-tauri/src/core.rs:336-349 | The line a turn ends with, as the agent prints it, settles the held task failed or done as it says, with its own answer, and adds exactly its counters. |
| Orchestrator.ReportsOfPrinted | src-tauri/src/protocol.rs:163-173 | Of any printed output the reader gets exactly the ends of turns, in order, each with its own outcome, answer, counters and time. |
| Orchestrator.Core.RunHeadlessStdout | src-tauri/src/core.rs:329-351 | A reader run over a worker's whole output adds up the counters of all results in it and writes the verdict; the held task is settled by the first result as it says, at its time, and without a result it is requeued or failed after a crash and kept otherwise. |
| Orchestrator.Core.Kill | src-tauri/src/core.rs:771-780 | Only a registered session can be killed; its stop flag is stored and its reader is not moved. |
| Orchestrator.Core.EndSession | src-tauri/src/core.rs:527-601 | The session ends stopped if that was requested, completed on exit code zero and crashed otherwise; a crashed one's task is back in the queue, bound to nobody, if restart is on and an attempt is left, and failed otherwise. |
| Orchestrator.Core.SendMessage | src-tauri/src/core.rs:606-628 | A message is accepted exactly when the session is registered and headless and the write succeeds, and then marks it busy. |
| Orchestrator.Core.SpawnSession | src-tauri/src/core.rs:275-298 | A new session is registered as opened, headless ones starting and terminals idle, with an empty ring of the configured size but at least 4096 bytes. |
| Orchestrator.Core.OnChunk | src-tauri/src/core.rs:383-389 | A terminal's chunk enters its ring, which keeps the last bytes, and is shown exactly if the pane is attached. |
| Orchestrator.Core.Attach | src-tauri/src/core.rs:694-750 | The session becomes the newest pane, only the oldest ones past the clamped cap are evicted and every flag agrees with the list; a registered terminal that ever had output is repainted with one frame holding the last bytes, up to its ring's size, of all its output since the spawn, and nothing else is shown. |
| Orchestrator.Core.Detach | src-tauri/src/core.rs:714-732 | The entry leaves the list, the others keep their order, the session's flag is cleared and nothing else changes. |
| Orchestrator.Core.RemoveSession | src-tauri/src/core.rs:784-808 | The session leaves registry and list and the task it held has failed; if it was starting, idle or busy its stop flag is stored, and otherwise, as for every other worker, nothing changes. |
| AttachLru.Inclusion | src-tauri/src/core.rs:694-717 | For one history the list under a smaller cap is a suffix of the list under a larger one. |
| AttachLru.Membership | src-tauri/src/core.rs:694-717 | A session is in the list exactly when it was attached and not dropped since and fewer than cap sessions were ever more recent since. |
| AttachLru.ListIsDistinct | src-tauri/src/core.rs:696-705 | The list never repeats a session and never exceeds the cap. |
| AttachLru.WithoutAt | src-tauri/src/core.rs:698 | Dropping an entry leaves all the others in their order. |
| Ring.RingBuffer.constructor | src-tauri/src/ring.rs:14-19 | A new ring is empty and holds at least 4096 bytes. |
| Ring.RingBuffer.Push | src-tauri/src/ring.rs:22-34 | The ring then holds the last cap bytes of its contents and the data, hence of everything ever pushed, across the wrap-around. |
| Ring.RingBuffer.Snapshot | src-tauri/src/ring.rs:37-39 | The snapshot is the last cap bytes of everything pushed. |
| Ring.RingIsSuffix | src-tauri/src/ring.rs:22-39 | Whatever the chunking, the ring is the tail of the concatenated stream and within its capacity. |
| Replay.AttachLosesNothing | src-tauri/src/core.rs:377-393 | In every interleaving of reader and attach every byte from the start of the replayed window on is emitted while attached, and all output shown is the stream's own. |
| Replay.LiveContinuesTheSnapshot | src-tauri/src/core.rs:734-750 | Live output tested after the snapshot is one gapless piece of the stream that starts at the snapshot's end or at the one chunk in flight. |
| Storage.UpsertStoresIff | src-tauri/src/storage.rs:180-195 | An upsert stores the task exactly if and only if its id is new or the columns it does not rewrite agree. |
| Storage.UpsertRewritesSeven | src-tauri/src/storage.rs:185-188 | On a conflict exactly the seven listed columns follow the task; the other columns and the other rows stay. |
| Storage.MovesKeepFixedColumns | src-tauri/src/core.rs:881-948 | No operation changes a column the upsert does not rewrite. |
| Storage.RunKeepsPersisted | src-tauri/src/storage.rs:180-195 | Over any run with each write followed by its upsert, every row equals the task in memory, assigned stored as queued. |
| Json.StringRoundTrip | src-tauri/src/protocol.rs:180-186 | Reading an escaped string gives back the string, whatever follows. |
| Json.ValueRoundTrip | src-tauri/src/protocol.rs:110-116 | Reading any printed JSON value gives back the value and leaves what follows it. |
| Json.PrintIsVisible | src-tauri/src/protocol.rs:178-186 | A printed value contains no raw control character, so no line break. |
| StreamJson.ParseMessageContent | src-tauri/src/protocol.rs:61-92 | For any list of text, tool-call and tool-result blocks the loop yields their texts joined in order and the names of the tools called. |
| StreamJson.MessageRoundTrip | src-tauri/src/protocol.rs:134-147 | Any such list, printed as an assistant's or a user's message and read as a line, yields exactly those texts and tools. |
| StreamJson.ParsePrintedObject | src-tauri/src/protocol.rs:110-176 | Any printed object, read as a line, yields the event it stands for. |
| StreamJson.FramingRoundTrip | src-tauri/src/protocol.rs:178-186 | Any list of prompts written as lines, read line by line, gives back exactly those prompts in order. |
| StreamJson.ResultRoundTrip | src-tauri/src/protocol.rs:163-173 | A result line yields its error flag, text, all four counters in their own fields and its turn count cut to 32 bits. |
| StreamJson.InitFields | src-tauri/src/protocol.rs:119-127 | The handshake carries session id, model and directory, each from its own member, absent if that is missing. |
| StreamJson.SystemFields | src-tauri/src/protocol.rs:127-132 | Any other system line carries its subtype and the first 400 characters of its text. |
| StreamJson.DeltaFields | src-tauri/src/protocol.rs:148-162 | A partial message yields its text unless that is empty. |
| StreamJson.ResultFields | src-tauri/src/protocol.rs:163-173 | A result is an error exactly if it says so; answer, counters, turn count and session id are those of their members, and absent or zero without them. |
| StreamJson.OtherKinds | src-tauri/src/protocol.rs:174 | Any other kind of line is kept by its name, one without a type as unknown. |
| StreamJson.PromptIsUserTurn | src-tauri/src/protocol.rs:180-186 | A prompt is written as one line that reads as a user's message, in the role of the user, with the prompt as its content. |
| StreamJson.WhiteSpaceIsIgnored | src-tauri/src/protocol.rs:110-115 | White space around an object changes nothing, and a line of white space alone is no event. |

## Left out

- Process creation, ConPTY, pipes, SQLite, Tauri events, sysinfo and the clock: their results are arbitrary values.
- The cost figure, CPU and memory readings are floating point; the throttle is a boolean parameter of `Tick`.
- Logs, session rows, snapshots, project files, renaming, resizing, raw PTY input and the launcher: field copying.
- The 64 KiB growth of the ring's storage: the circular array has its full capacity from the start.
- Error texts of a failed send name no session id, because ids are numbers here.
- serde_json is not part of this model; number ranges beyond 64-bit integers are not checked on reading.
- The order of replayed and newer live bytes: only coverage holds, because a live chunk can be emitted before the replay.
- Overlapping attach commands: two at once can leave a flag and the list in disagreement.
- Orchestrator.Core.EnqueueTask: keeps `Valid` for a new id without attempts only; what a reused id does to the tokens is stated by `Guarantees.EnqueueKeepsTokenIff`.
- Orchestrator.Core.OnChunk: does not say whether a chunk of a terminal already removed is still shown; its flag is not kept after the removal.
- Orchestrator.Core.RunHeadlessStdout: the reader alone, with no other thread between its lock sections; the interleaved readers are the machine's.
- Orchestrator.Core.Tick: taken as one piece, with no other thread between its lock sections; the interleaved scheduler is the machine's.
- Storage.RunKeepsPersisted: takes each upsert together with its write; interleaved upserts of one task can store an older version.
