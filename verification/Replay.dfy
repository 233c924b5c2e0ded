/** Attaching to a terminal while its reader keeps producing: two threads, five lock sections. */
module Replay {
  import opened Model
  import opened Ring
  import opened Sequences

  /** The reader thread: chunk `[from, |stream|)` is pushed, then the flag tested, then emitted.
      `counted` records that the test came after the snapshot of the current attachment. */
  datatype ReaderAt = Waiting | Pushed(from: nat) | Hot(from: nat, counted: bool)

  /** The command thread inside `attach`. */
  datatype AttachAt = Out | Flagged | Snapped(start: nat, stop: nat)

  datatype Emission = Emission(start: nat, data: seq<byte>, replay: bool)

  /** `view` records the current attachment: the start and end of its first snapshot, the position
      its live bytes start from, those bytes, and how many emissions came before. */
  datatype View = View(start: nat, stop: nat, liveFrom: nat, live: seq<byte>, since: nat)

  datatype Term = Term(
    cap: nat,
    stream: seq<byte>,
    attached: bool,
    reader: ReaderAt,
    command: AttachAt,
    out: seq<Emission>,
    view: Option<View>)

  function Start(cap: nat): Term { Term(cap, [], false, Waiting, Out, [], None) }

  datatype Step = Push(chunk: seq<byte>) | Test | Emit | StoreFlag | Snapshot | EmitReplay | Detach

  predicate Enabled(s: Term, step: Step) {
    match step
    case Push(chunk) => s.reader.Waiting? && chunk != []
    case Test => s.reader.Pushed?
    case Emit => s.reader.Hot? && s.reader.from <= |s.stream|
    case StoreFlag => s.command.Out?
    case Snapshot => s.command.Flagged?
    case EmitReplay => s.command.Snapped? && s.command.start <= s.command.stop <= |s.stream|
    case Detach => s.command.Out?
  }

  /** Every byte before this position has been tested against the flag. */
  function Tested(s: Term): nat { if s.reader.Pushed? then s.reader.from else |s.stream| }

  function Apply(s: Term, step: Step): Term
    requires Enabled(s, step)
  {
    match step
    case Push(chunk) => s.(stream := s.stream + chunk, reader := Pushed(|s.stream|))
    case Test => s.(reader := if s.attached then Hot(s.reader.from, s.view.Some?) else Waiting)
    case Emit =>
      var chunk := s.stream[s.reader.from..];
      s.(reader := Waiting,
         out := s.out + [Emission(s.reader.from, chunk, false)],
         view := if s.reader.counted && s.view.Some?
                 then Some(s.view.value.(live := s.view.value.live + chunk)) else s.view)
    case StoreFlag => s.(attached := true, command := Flagged)
    case Snapshot =>
      var size := |LastN(s.stream, s.cap)|;
      var start := |s.stream| - size;
      s.(command := if size == 0 then Out else Snapped(start, |s.stream|),
         view := if s.view.None? then Some(View(start, |s.stream|, Tested(s), [], |s.out|)) else s.view)
    case EmitReplay =>
      s.(command := Out,
         out := s.out + [Emission(s.command.start, s.stream[s.command.start..s.command.stop], true)])
    case Detach =>
      s.(attached := false, view := None,
         reader := if s.reader.Hot? then s.reader.(counted := false) else s.reader)
  }

  // ----- what the interleavings keep -----

  predicate Covers(e: Emission, i: nat) { e.start <= i < e.start + |e.data| }

  predicate Emitted(out: seq<Emission>, since: nat, i: nat) { exists k :: since <= k < |out| && Covers(out[k], i) }

  /** The emission shows exactly the stream's bytes at its place. */
  predicate Genuine(stream: seq<byte>, e: Emission) {
    e.start + |e.data| <= |stream| && e.data == stream[e.start..e.start + |e.data|]
  }

  predicate InFlight(s: Term, i: nat) {
    || (s.command.Snapped? && s.command.start <= i < s.command.stop)
    || (!s.reader.Waiting? && s.reader.from <= i)
  }

  /** How far the live bytes of this attachment have been emitted. */
  function Shown(s: Term): nat {
    if s.reader.Pushed? || (s.reader.Hot? && s.reader.counted) then s.reader.from else |s.stream|
  }

  /** The replayed window is the ring's: the last `cap` bytes before the snapshot. */
  predicate Window(s: Term, v: View) {
    && v.liveFrom <= v.stop <= |s.stream| && v.since <= |s.out|
    && v.start == (if v.stop <= s.cap then 0 else v.stop - s.cap)
  }

  /** The live bytes follow the stream without gap or repetition from `liveFrom` on. */
  predicate LiveOk(s: Term, v: View) {
    v.liveFrom <= Shown(s) <= |s.stream| && v.live == s.stream[v.liveFrom..Shown(s)]
  }

  predicate Coverage(s: Term, v: View) {
    forall i :: v.start <= i < |s.stream| ==> Emitted(s.out, v.since, i) || InFlight(s, i)
  }

  predicate Positions(s: Term) {
    && (!s.reader.Waiting? ==> s.reader.from < |s.stream|)
    && (s.command.Snapped? ==> s.command.start <= s.command.stop <= |s.stream|)
    && (s.attached <==> s.view.Some? || s.command.Flagged?)
    && (s.command.Snapped? ==> s.view.Some?)
    && (s.reader.Hot? && s.reader.counted ==> s.view.Some?)
  }

  predicate AllGenuine(s: Term) { forall k :: 0 <= k < |s.out| ==> Genuine(s.stream, s.out[k]) }

  predicate Inv(s: Term) {
    && Positions(s)
    && (s.view.Some? ==> Window(s, s.view.value) && LiveOk(s, s.view.value) && Coverage(s, s.view.value))
    && AllGenuine(s)
  }

  lemma EmittedGrows(out: seq<Emission>, since: nat, e: Emission, i: nat)
    requires since <= |out|
    ensures Emitted(out, since, i) || Covers(e, i) ==> Emitted(out + [e], since, i)
  {
    if Emitted(out, since, i) {
      var k :| since <= k < |out| && Covers(out[k], i);
      assert (out + [e])[k] == out[k];
    }
    if Covers(e, i) { assert (out + [e])[|out|] == e; }
  }

  lemma StepKeepsPositions(s: Term, step: Step)
    requires Inv(s) && Enabled(s, step)
    ensures Positions(Apply(s, step))
  {}

  lemma StepKeepsGenuine(s: Term, step: Step)
    requires Positions(s) && AllGenuine(s) && Enabled(s, step)
    ensures AllGenuine(Apply(s, step))
  {
    var s' := Apply(s, step);
    StepEmits(s, step);
    forall k | 0 <= k < |s'.out| ensures Genuine(s'.stream, s'.out[k]) {
      if k < |s.out| { assert Genuine(s.stream, s.out[k]) && s'.out[k] == s.out[k]; }
      GenuineStays(s.stream, s'.stream, s'.out[k]);
    }
  }

  /** A step emits nothing or one piece of the stream. */
  lemma StepEmits(s: Term, step: Step)
    requires Positions(s) && Enabled(s, step)
    ensures var s' := Apply(s, step);
            && s.stream <= s'.stream
            && (s'.out == s.out || (|s'.out| == |s.out| + 1 && s.out <= s'.out && Genuine(s.stream, s'.out[|s.out|])))
  {
    var s' := Apply(s, step);
    if step.Emit? {
      assert s'.out[|s.out|] == Emission(s.reader.from, s.stream[s.reader.from..], false);
    } else if step.EmitReplay? {
      assert s'.out[|s.out|] == Emission(s.command.start, s.stream[s.command.start..s.command.stop], true);
    }
  }

  lemma GenuineStays(stream: seq<byte>, longer: seq<byte>, e: Emission)
    requires stream <= longer && Genuine(stream, e)
    ensures Genuine(longer, e)
  {
    assert longer[e.start..e.start + |e.data|] == stream[e.start..e.start + |e.data|];
  }

  lemma StepKeepsLive(s: Term, step: Step)
    requires Inv(s) && Enabled(s, step) && Apply(s, step).view.Some?
    ensures Window(Apply(s, step), Apply(s, step).view.value) && LiveOk(Apply(s, step), Apply(s, step).view.value)
  {
    var s' := Apply(s, step);
    if s.view.Some? {
      var v := s.view.value;
      assert s'.stream[v.liveFrom..Shown(s)] == s.stream[v.liveFrom..Shown(s)];
      if step.Emit? && s.reader.counted {
        assert s.stream[v.liveFrom..] == s.stream[v.liveFrom..s.reader.from] + s.stream[s.reader.from..];
      }
    }
  }

  lemma StepKeepsCoverage(s: Term, step: Step)
    requires Inv(s) && Enabled(s, step) && Apply(s, step).view.Some?
    ensures Coverage(Apply(s, step), Apply(s, step).view.value)
  {
    var s' := Apply(s, step);
    forall i | s'.view.value.start <= i < |s'.stream|
      ensures Emitted(s'.out, s'.view.value.since, i) || InFlight(s', i)
    {
      if s'.out != s.out { EmittedGrows(s.out, s'.view.value.since, s'.out[|s.out|], i); }
    }
  }

  lemma StepKeepsInv(s: Term, step: Step)
    requires Inv(s) && Enabled(s, step)
    ensures Inv(Apply(s, step))
  {
    StepKeepsPositions(s, step);
    StepKeepsGenuine(s, step);
    if Apply(s, step).view.Some? {
      StepKeepsLive(s, step);
      StepKeepsCoverage(s, step);
    }
  }

  // ----- whole interleavings -----

  predicate Legal(s: Term, run: seq<Step>)
    decreases |run|
  {
    run == [] || (Enabled(s, run[0]) && Legal(Apply(s, run[0]), run[1..]))
  }

  function Exec(s: Term, run: seq<Step>): Term
    requires Legal(s, run)
    decreases |run|
  {
    if run == [] then s else Exec(Apply(s, run[0]), run[1..])
  }

  lemma {:induction false} RunKeepsInv(s: Term, run: seq<Step>)
    requires Inv(s) && Legal(s, run)
    ensures Inv(Exec(s, run)) && Exec(s, run).cap == s.cap
    decreases |run|
  {
    if run != [] {
      StepKeepsInv(s, run[0]);
      RunKeepsInv(Apply(s, run[0]), run[1..]);
    }
  }

  /** Attaching loses no output: in every interleaving, while the session stays attached and neither
      thread is mid-way, every byte from the start of the replayed window on has been emitted since the
      attachment's snapshot, and everything ever emitted shows the stream's own bytes.  The window is the
      ring's: the last `cap` bytes at the snapshot. */
  lemma AttachLosesNothing(cap: nat, run: seq<Step>)
    requires Legal(Start(cap), run)
    ensures AllGenuine(Exec(Start(cap), run))
    ensures var s := Exec(Start(cap), run);
            s.attached && s.command.Out? && s.reader.Waiting? ==>
              && s.view.Some? && Window(s, s.view.value) && s.cap == cap
              && forall i :: s.view.value.start <= i < |s.stream| ==> Emitted(s.out, s.view.value.since, i)
  {
    RunKeepsInv(Start(cap), run);
    var s := Exec(Start(cap), run);
    if s.attached && s.command.Out? && s.reader.Waiting? {
      forall i | s.view.value.start <= i < |s.stream| ensures Emitted(s.out, s.view.value.since, i) {
        assert Emitted(s.out, s.view.value.since, i) || InFlight(s, i);
      }
    }
  }

  /** The bytes tested after the snapshot are emitted live as one contiguous piece of the stream, which
      starts where the snapshot ends or, if a chunk was pushed but not yet tested, at that chunk. */
  lemma LiveContinuesTheSnapshot(cap: nat, before: seq<Step>, run: seq<Step>)
    requires Legal(Start(cap), before) && Enabled(Exec(Start(cap), before), Snapshot)
    requires Exec(Start(cap), before).view.None?
    requires Legal(Apply(Exec(Start(cap), before), Snapshot), run)
    requires forall i :: 0 <= i < |run| ==> !run[i].Detach?
    ensures var s, s' := Exec(Start(cap), before), Exec(Apply(Exec(Start(cap), before), Snapshot), run);
            && s'.view.Some? && s'.view.value.stop == |s.stream|
            && s'.view.value.liveFrom == (if s.reader.Pushed? then s.reader.from else |s.stream|)
            && LiveOk(s', s'.view.value)
  {
    RunKeepsInv(Start(cap), before);
    var s := Exec(Start(cap), before);
    StepKeepsInv(s, Snapshot);
    RunKeepsInv(Apply(s, Snapshot), run);
    ViewIsFixed(Apply(s, Snapshot), run);
  }

  lemma {:induction false} ViewIsFixed(s: Term, run: seq<Step>)
    requires Legal(s, run) && s.view.Some? && forall i :: 0 <= i < |run| ==> !run[i].Detach?
    ensures var v := Exec(s, run).view;
            v.Some? && v.value.start == s.view.value.start && v.value.stop == s.view.value.stop
            && v.value.liveFrom == s.view.value.liveFrom
    decreases |run|
  {
    if run != [] {
      forall i | 0 <= i < |run[1..]| ensures !run[1..][i].Detach? { assert run[1..][i] == run[i + 1]; }
      ViewIsFixed(Apply(s, run[0]), run[1..]);
    }
  }
}
