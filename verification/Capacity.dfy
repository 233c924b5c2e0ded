/** The concurrency cap over whole interleaved runs. */
module Capacity {
  import opened Model
  import opened Machine
  import opened Invariant
  import Guarantees

  /** Registered headless workers whose reader has not finalized them. */
  function LiveHeadless(s: State): set<SessionId> {
    set w | w in s.sessions && Live(s, w) && s.sessions[w].mode == Headless
  }

  /** Registered headless workers that are over, yet marked busy by a late write: they count as active
      for good. */
  function Zombies(s: State): set<SessionId> {
    set w | w in s.sessions && w in s.workers && Finalized(s.workers[w])
            && s.sessions[w].mode == Headless && s.sessions[w].status == Busy
  }

  /** The slot the scheduler may be about to fill. */
  function Claimed(s: State): nat { if s.sched.Admitting? || s.sched.Took? then 1 else 0 }

  predicate WithinCap(s: State, cap: nat) {
    |LiveHeadless(s)| + Claimed(s) <= cap
  }

  /** The cap is fixed and headless workers come from the scheduler only. */
  predicate Managed(step: Step, cap: nat) {
    && (step.Sched? && step.s.Admit? ==> step.s.cap == cap)
    && (step.Cmd? && step.c.Spawn? ==> step.c.mode != Headless)
  }

  /** What counts as active is what lives and what a late mark revived. */
  lemma LiveAreActive(s: State)
    requires Inv(s)
    ensures ActiveHeadless(s.sessions) == LiveHeadless(s) + Zombies(s) && LiveHeadless(s) !! Zombies(s)
    ensures |ActiveHeadless(s.sessions)| == |LiveHeadless(s)| + |Zombies(s)|
  {
    forall w ensures w in ActiveHeadless(s.sessions) <==> w in LiveHeadless(s) + Zombies(s) {
      if w in s.sessions { assert WorkerOk(s, w); }
    }
  }

  /** Only a spawn adds a live headless worker. */
  lemma LiveGrows(s: State, step: Step, w: SessionId)
    requires Enabled(s, step) && w in LiveHeadless(Apply(s, step))
    ensures || w in LiveHeadless(s)
            || (step.Sched? && step.s == SpawnFor(w))
            || (step.Cmd? && step.c.Spawn? && step.c.mode == Headless)
  {
    match step
    case Sched(x) => SchedLiveGrows(s, x, w);
    case Read(v, x) => ReadLiveGrows(s, v, x, w);
    case Cmd(c) => CmdLiveGrows(s, c, w);
  }

  lemma CmdLiveGrows(s: State, c: Command, w: SessionId)
    requires CmdEnabled(s, c) && w in LiveHeadless(CmdApply(s, c))
    ensures w in LiveHeadless(s) || (c.Spawn? && c.mode == Headless)
  {}

  lemma SchedLiveGrows(s: State, x: SchedStep, w: SessionId)
    requires SchedEnabled(s, x) && w in LiveHeadless(SchedApply(s, x))
    ensures w in LiveHeadless(s) || x == SpawnFor(w)
  {}

  lemma ReadLiveGrows(s: State, v: SessionId, x: ReadStep, w: SessionId)
    requires ReadEnabled(s, v, x) && w in LiveHeadless(ReadApply(s, v, x))
    ensures w in LiveHeadless(s)
  {}

  lemma StepKeepsCap(s: State, step: Step, cap: nat)
    requires Inv(s) && Enabled(s, step) && Managed(step, cap) && WithinCap(s, cap)
    ensures WithinCap(Apply(s, step), cap)
  {
    ClaimNeedsRoom(s, step, cap);
    if Spawns(step) {
      SpawnAddsLive(s, step);
    } else {
      LiveAreActive(s);
      NoLiveGrowth(s, step, cap);
    }
  }

  /** A slot is claimed by the cap check only, and given up by the spawn. */
  lemma ClaimNeedsRoom(s: State, step: Step, cap: nat)
    requires Enabled(s, step) && Managed(step, cap)
    ensures Claimed(Apply(s, step)) <= Claimed(s) ||
            (|ActiveHeadless(s.sessions)| < cap && Apply(s, step).sessions == s.sessions)
    ensures Spawns(step) ==> Claimed(s) == 1 && Claimed(Apply(s, step)) == 0
  {
    match step
    case Sched(_) =>
    case Read(w, x) => ReadKeepsClaim(s, w, x);
    case Cmd(c) => assert CmdApply(s, c).sched == s.sched;
  }

  lemma ReadKeepsClaim(s: State, w: SessionId, x: ReadStep)
    requires ReadEnabled(s, w, x)
    ensures ReadApply(s, w, x).sched == s.sched
  {}

  predicate Spawns(step: Step) { step.Sched? && step.s.SpawnFor? }

  lemma SpawnAddsLive(s: State, step: Step)
    requires Enabled(s, step) && Spawns(step)
    ensures |LiveHeadless(Apply(s, step))| <= |LiveHeadless(s)| + 1
  {
    var after := LiveHeadless(Apply(s, step));
    forall w | w in after ensures w in LiveHeadless(s) + {step.s.sid} { LiveGrows(s, step, w); }
    Guarantees.SubsetSize(after, LiveHeadless(s) + {step.s.sid});
  }

  lemma NoLiveGrowth(s: State, step: Step, cap: nat)
    requires Enabled(s, step) && Managed(step, cap) && !Spawns(step)
    ensures |LiveHeadless(Apply(s, step))| <= |LiveHeadless(s)|
  {
    var after := LiveHeadless(Apply(s, step));
    forall w | w in after ensures w in LiveHeadless(s) { LiveGrows(s, step, w); }
    Guarantees.SubsetSize(after, LiveHeadless(s));
  }

  predicate AllManaged(run: seq<Step>, cap: nat) { forall i :: 0 <= i < |run| ==> Managed(run[i], cap) }

  lemma ManagedTail(run: seq<Step>, cap: nat)
    requires run != [] && AllManaged(run, cap)
    ensures AllManaged(run[1..], cap)
  {
    forall i | 0 <= i < |run[1..]| ensures Managed(run[1..][i], cap) { assert run[1..][i] == run[i + 1]; }
  }

  /** In every interleaving under a fixed cap and without manual workers, the live headless workers
      never outnumber the cap; whatever `count_active_headless` counts beyond them is zombies. */
  lemma {:induction false} CapHolds(s: State, run: seq<Step>, cap: nat)
    requires Inv(s) && Proper(s, run) && AllManaged(run, cap) && WithinCap(s, cap)
    ensures Legal(s, run)
    ensures var s' := Exec(s, run);
            WithinCap(s', cap) && |ActiveHeadless(s'.sessions)| <= cap + |Zombies(s')|
    decreases |run|
  {
    if run == [] {
      LiveAreActive(s);
    } else {
      StepKeepsCap(s, run[0], cap);
      StepKeepsInv(s, run[0]);
      ManagedTail(run, cap);
      CapHolds(Apply(s, run[0]), run[1..], cap);
    }
  }

  // ----- the active count itself -----

  /** Slots in use: the active workers, and the one the scheduler may be about to spawn. */
  function Slots(s: State): nat {
    |ActiveHeadless(s.sessions)| + Claimed(s)
  }

  /** A busy mark for a registered headless session whose status is terminal. */
  predicate Revives(s: State, step: Step) {
    && ((step == Sched(MarkSent) && s.sched.Sent?) || (step.Cmd? && step.c.MarkBusy?))
    && var w := if step.Sched? then s.sched.sid else step.c.sid;
    w in s.sessions && s.sessions[w].mode == Headless && s.sessions[w].status.IsTerminal()
  }

  function Marked(s: State, step: Step): SessionId
    requires Revives(s, step)
  {
    if step.Sched? then s.sched.sid else step.c.sid
  }

  lemma RevivalAdds(s: State, step: Step)
    requires Enabled(s, step) && Revives(s, step)
    ensures |ActiveHeadless(Apply(s, step).sessions)| == |ActiveHeadless(s.sessions)| + 1
    ensures Slots(Apply(s, step)) == Slots(s) + 1
  {
    var w := Marked(s, step);
    assert ActiveHeadless(Apply(s, step).sessions) == ActiveHeadless(s.sessions) + {w};
  }

  lemma SpawnAdds(s: State, step: Step)
    requires Enabled(s, step) && Spawns(step)
    ensures |ActiveHeadless(Apply(s, step).sessions)| == |ActiveHeadless(s.sessions)| + 1
    ensures Slots(Apply(s, step)) == Slots(s)
  {
    assert ActiveHeadless(Apply(s, step).sessions) == ActiveHeadless(s.sessions) + {step.s.sid};
  }

  /** Besides revivals only a spawn adds an active headless worker. */
  lemma ActiveGrows(s: State, step: Step, w: SessionId)
    requires Inv(s) && Enabled(s, step) && !Revives(s, step) && w in ActiveHeadless(Apply(s, step).sessions)
    ensures || w in ActiveHeadless(s.sessions)
            || (step.Sched? && step.s == SpawnFor(w))
            || (step.Cmd? && step.c.Spawn? && step.c.mode == Headless)
  {
    match step
    case Sched(x) => SchedActiveGrows(s, x, w);
    case Read(v, x) =>
      assert WorkerOk(s, v);
      ReadActiveGrows(s, v, x, w);
    case Cmd(c) => CmdActiveGrows(s, c, w);
  }

  lemma SchedActiveGrows(s: State, x: SchedStep, w: SessionId)
    requires SchedEnabled(s, x) && !Revives(s, Sched(x)) && w in ActiveHeadless(SchedApply(s, x).sessions)
    ensures w in ActiveHeadless(s.sessions) || x == SpawnFor(w)
  {}

  lemma ReadActiveGrows(s: State, v: SessionId, x: ReadStep, w: SessionId)
    requires ReadEnabled(s, v, x) && WorkerOk(s, v) && w in ActiveHeadless(ReadApply(s, v, x).sessions)
    ensures w in ActiveHeadless(s.sessions)
  {}

  lemma CmdActiveGrows(s: State, c: Command, w: SessionId)
    requires CmdEnabled(s, c) && !Revives(s, Cmd(c)) && w in ActiveHeadless(CmdApply(s, c).sessions)
    ensures w in ActiveHeadless(s.sessions) || (c.Spawn? && c.mode == Headless)
  {}

  /** A managed step that neither spawns nor revives adds no active worker, and a slot only below the cap. */
  lemma OtherwiseNoGrowth(s: State, step: Step, cap: nat)
    requires Inv(s) && Enabled(s, step) && Managed(step, cap) && !Revives(s, step) && !Spawns(step)
    ensures |ActiveHeadless(Apply(s, step).sessions)| <= |ActiveHeadless(s.sessions)|
    ensures Slots(s) <= cap ==> Slots(Apply(s, step)) <= cap
  {
    ClaimNeedsRoom(s, step, cap);
    ActiveStays(s, step, cap);
  }

  lemma ActiveStays(s: State, step: Step, cap: nat)
    requires Inv(s) && Enabled(s, step) && Managed(step, cap) && !Revives(s, step) && !Spawns(step)
    ensures |ActiveHeadless(Apply(s, step).sessions)| <= |ActiveHeadless(s.sessions)|
  {
    var before, after := ActiveHeadless(s.sessions), ActiveHeadless(Apply(s, step).sessions);
    forall w | w in after ensures w in before { ActiveGrows(s, step, w); }
    assert after <= before;
    Guarantees.SubsetSize(after, before);
  }

  /** A step taken with the slots within the cap leaves them within it exactly unless it revives an ended
      session when every slot is in use. */
  lemma StepKeepsSlotsIff(s: State, step: Step, cap: nat)
    requires Inv(s) && Enabled(s, step) && Managed(step, cap) && Slots(s) <= cap
    ensures Slots(Apply(s, step)) <= cap <==> !(Revives(s, step) && Slots(s) == cap)
  {
    if Revives(s, step) { RevivalAdds(s, step); }
    else if Spawns(step) { SpawnAdds(s, step); }
    else { OtherwiseNoGrowth(s, step, cap); }
  }

  /** The count itself passes the cap exactly when a worker is spawned or revived at the cap. */
  lemma StepKeepsActiveIff(s: State, step: Step, cap: nat)
    requires Inv(s) && Enabled(s, step) && Managed(step, cap) && |ActiveHeadless(s.sessions)| <= cap
    ensures |ActiveHeadless(Apply(s, step).sessions)| <= cap <==>
            !((Revives(s, step) || Spawns(step)) && |ActiveHeadless(s.sessions)| == cap)
  {
    if Revives(s, step) { RevivalAdds(s, step); }
    else if Spawns(step) { SpawnAdds(s, step); }
    else { OtherwiseNoGrowth(s, step, cap); }
  }

  /** At every point of the run the slots in use are within the cap. */
  predicate AlwaysWithin(s: State, run: seq<Step>, cap: nat)
    requires Legal(s, run)
    decreases |run|
  {
    Slots(s) <= cap && (run != [] ==> AlwaysWithin(Apply(s, run[0]), run[1..], cap))
  }

  /** Some step of the run revives an ended session when exactly `cap` slots are in use. */
  predicate RevivesWhenFull(s: State, run: seq<Step>, cap: nat)
    requires Legal(s, run)
    decreases |run|
  {
    run != [] && ((Revives(s, run[0]) && Slots(s) == cap) || RevivesWhenFull(Apply(s, run[0]), run[1..], cap))
  }

  lemma {:induction false} SlotsWithinIff(s: State, run: seq<Step>, cap: nat)
    requires Inv(s) && Proper(s, run) && Legal(s, run) && AllManaged(run, cap) && Slots(s) <= cap
    ensures AlwaysWithin(s, run, cap) <==> !RevivesWhenFull(s, run, cap)
    decreases |run|
  {
    if run != [] {
      StepKeepsSlotsIff(s, run[0], cap);
      if !(Revives(s, run[0]) && Slots(s) == cap) {
        StepKeepsInv(s, run[0]);
        ManagedTail(run, cap);
        SlotsWithinIff(Apply(s, run[0]), run[1..], cap);
      }
    }
  }

  /** Under a fixed cap and without manual workers, in every interleaving: the active count, with the slot
      the scheduler holds, stays within the cap throughout if and only if no busy mark revives an ended
      session when all slots are in use. */
  lemma ActiveWithinCapIff(run: seq<Step>, cap: nat)
    requires Proper(INIT, run) && Legal(INIT, run) && AllManaged(run, cap)
    ensures AlwaysWithin(INIT, run, cap) <==> !RevivesWhenFull(INIT, run, cap)
    ensures AlwaysWithin(INIT, run, cap) ==> |ActiveHeadless(Exec(INIT, run).sessions)| <= cap
  {
    InitInv();
    SlotsWithinIff(INIT, run, cap);
    if AlwaysWithin(INIT, run, cap) { WithinAtEnd(INIT, run, cap); }
  }

  lemma {:induction false} WithinAtEnd(s: State, run: seq<Step>, cap: nat)
    requires Legal(s, run) && AlwaysWithin(s, run, cap)
    ensures Slots(Exec(s, run)) <= cap
    decreases |run|
  {
    if run != [] { WithinAtEnd(Apply(s, run[0]), run[1..], cap); }
  }

  /** At every point of the run the active count is within the cap. */
  predicate CountWithin(s: State, run: seq<Step>, cap: nat)
    requires Legal(s, run)
    decreases |run|
  {
    |ActiveHeadless(s.sessions)| <= cap && (run != [] ==> CountWithin(Apply(s, run[0]), run[1..], cap))
  }

  /** Some step of the run spawns or revives a worker when exactly `cap` are active. */
  predicate GrowsAtCap(s: State, run: seq<Step>, cap: nat)
    requires Legal(s, run)
    decreases |run|
  {
    run != [] &&
    (((Revives(s, run[0]) || Spawns(run[0])) && |ActiveHeadless(s.sessions)| == cap)
     || GrowsAtCap(Apply(s, run[0]), run[1..], cap))
  }

  lemma {:induction false} CountWithinFrom(s: State, run: seq<Step>, cap: nat)
    requires Inv(s) && Proper(s, run) && Legal(s, run) && AllManaged(run, cap)
    requires |ActiveHeadless(s.sessions)| <= cap
    ensures CountWithin(s, run, cap) <==> !GrowsAtCap(s, run, cap)
    decreases |run|
  {
    if run != [] {
      StepKeepsActiveIff(s, run[0], cap);
      if |ActiveHeadless(Apply(s, run[0]).sessions)| <= cap {
        StepKeepsInv(s, run[0]);
        ManagedTail(run, cap);
        CountWithinFrom(Apply(s, run[0]), run[1..], cap);
      }
    }
  }

  /** The active count itself, under the same conditions: within the cap throughout if and only if no worker
      is spawned or revived at the cap.  The scheduler spawns at the cap only after a revival in between its
      check and its spawn. */
  lemma CountWithinCapIff(run: seq<Step>, cap: nat)
    requires Proper(INIT, run) && Legal(INIT, run) && AllManaged(run, cap)
    ensures CountWithin(INIT, run, cap) <==> !GrowsAtCap(INIT, run, cap)
  {
    InitInv();
    CountWithinFrom(INIT, run, cap);
  }
}
