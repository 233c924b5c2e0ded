/** Token accounting: from the `Result` events of a run to the monitor's aggregate. */
module Monitor {
  import opened Model
  import opened Machine
  import Kills
  import opened Sums

  // ----- what a run's results report -----

  function PlainAdd(a: TokenUsage, b: TokenUsage): TokenUsage {
    TokenUsage(a.input + b.input, a.output + b.output, a.cacheCreation + b.cacheCreation, a.cacheRead + b.cacheRead)
  }

  function Wrapped(u: TokenUsage): TokenUsage {
    TokenUsage(Word(u.input), Word(u.output), Word(u.cacheCreation), Word(u.cacheRead))
  }

  function PlainTotal(u: TokenUsage): nat { u.input + u.output + u.cacheCreation + u.cacheRead }

  function ReportOf(step: Step, w: SessionId): TokenUsage {
    if step.Read? && step.sid == w && step.r.ResultEvent? then step.r.usage else NO_TOKENS
  }

  /** The unbounded sums of all counters reported by `w`'s results. */
  function Reported(run: seq<Step>, w: SessionId): TokenUsage
    decreases |run|
  {
    if run == [] then NO_TOKENS else PlainAdd(ReportOf(run[0], w), Reported(run[1..], w))
  }

  function UsageAt(s: State, w: SessionId): TokenUsage {
    if w in s.sessions then s.sessions[w].usage else NO_TOKENS
  }

  lemma SchedReports(s: State, x: SchedStep, w: SessionId)
    requires SchedEnabled(s, x)
    ensures UsageAt(SchedApply(s, x), w) == UsageAt(s, w)
  {}

  lemma ReadReports(s: State, v: SessionId, x: ReadStep, w: SessionId)
    requires ReadEnabled(s, v, x) && (w in s.sessions || w !in s.workers)
    ensures UsageAt(ReadApply(s, v, x), w) ==
            if v == w && x.ResultEvent? then AddUsage(UsageAt(s, w), x.usage) else UsageAt(s, w)
  {}

  lemma CmdReports(s: State, c: Command, w: SessionId)
    requires CmdEnabled(s, c) && (w in s.sessions <==> w in s.workers)
    requires !Gone(CmdApply(s, c), w)
    ensures UsageAt(CmdApply(s, c), w) == UsageAt(s, w)
  {}

  // ----- 64-bit words -----

  lemma {:induction false} WordAdds(a: nat, b: nat)
    ensures Word(Word(a) + b) == Word(a + b)
    decreases a
  {
    if a >= U64 {
      WordAdds(a - U64, b);
      assert Word(a + b) == Word(a + b - U64);
    }
  }

  lemma WordsAdd(a: nat, b: nat)
    ensures AddU64(Word(a), Word(b)) == Word(a + b)
  {
    WordAdds(a, Word(b));
    WordAdds(b, a);
  }

  lemma WordsCongruent(x: nat, y: nat, p: nat, q: nat)
    requires x == Word(p) && Word(y) == Word(q)
    ensures Word(x + y) == Word(p + q)
  {
    WordAdds(p, y);
    WordAdds(y, p);
    WordAdds(q, p);
  }

  lemma WrappedAdds(a: TokenUsage, b: TokenUsage)
    ensures Wrapped(PlainAdd(Wrapped(a), b)) == Wrapped(PlainAdd(a, b))
  {
    WordAdds(a.input, b.input);
    WordAdds(a.output, b.output);
    WordAdds(a.cacheCreation, b.cacheCreation);
    WordAdds(a.cacheRead, b.cacheRead);
  }

  lemma PlainAddAssociates(a: TokenUsage, b: TokenUsage, c: TokenUsage)
    ensures PlainAdd(PlainAdd(a, b), c) == PlainAdd(a, PlainAdd(b, c))
    ensures PlainAdd(a, NO_TOKENS) == a == PlainAdd(NO_TOKENS, a)
  {}

  lemma {:induction false} WordInRange(n: nat)
    ensures Word(n) < U64
    decreases n
  {
    if n >= U64 { WordInRange(n - U64); }
  }

  /** Folding in one report, or none, keeps the counters in range and adds modulo 2^64. */
  lemma ReportWraps(u: TokenUsage, r: TokenUsage, u': TokenUsage)
    requires Fits(u)
    requires u' == AddUsage(u, r) || (r == NO_TOKENS && u' == u)
    ensures Fits(u') && u' == Wrapped(PlainAdd(u, r))
  {
    WordInRange(u.input + r.input);
    WordInRange(u.output + r.output);
    WordInRange(u.cacheCreation + r.cacheCreation);
    WordInRange(u.cacheRead + r.cacheRead);
  }

  // ----- one step, then whole runs -----

  /** Registered with in-range counters, or not spawned yet. */
  predicate Tracked(s: State, w: SessionId) {
    && (w in s.sessions <==> w in s.workers)
    && Fits(UsageAt(s, w))
  }

  predicate Gone(s: State, w: SessionId) { w in s.workers && w !in s.sessions }

  lemma StepRegisters(s: State, step: Step, w: SessionId)
    requires Enabled(s, step) && (w in s.sessions <==> w in s.workers)
    ensures w in Apply(s, step).sessions ==> w in Apply(s, step).workers
    ensures w in s.sessions ==> w in Apply(s, step).workers
  {
    if w in s.workers { Kills.StepEvolves(s, step, w); }
  }

  lemma StepUsage(s: State, step: Step, w: SessionId)
    requires Enabled(s, step) && (w in s.sessions <==> w in s.workers) && !Gone(Apply(s, step), w)
    ensures UsageAt(Apply(s, step), w) ==
            if step.Read? && step.sid == w && step.r.ResultEvent?
            then AddUsage(UsageAt(s, w), ReportOf(step, w)) else UsageAt(s, w)
  {
    match step
    case Sched(x) => SchedReports(s, x, w);
    case Read(v, x) => ReadReports(s, v, x, w);
    case Cmd(c) => CmdReports(s, c, w);
  }

  lemma StepReports(s: State, step: Step, w: SessionId)
    requires Enabled(s, step) && Tracked(s, w) && !Gone(Apply(s, step), w)
    ensures Tracked(Apply(s, step), w)
    ensures UsageAt(Apply(s, step), w) == Wrapped(PlainAdd(UsageAt(s, w), ReportOf(step, w)))
  {
    StepRegisters(s, step, w);
    StepUsage(s, step, w);
    ReportWraps(UsageAt(s, w), ReportOf(step, w), UsageAt(Apply(s, step), w));
  }

  /** A registered session's counters are, modulo 2^64, the sums its results reported. */
  lemma {:induction false} UsageIsReported(s: State, run: seq<Step>, w: SessionId)
    requires Legal(s, run) && Tracked(s, w)
    ensures w in Exec(s, run).sessions ==>
              Exec(s, run).sessions[w].usage == Wrapped(PlainAdd(UsageAt(s, w), Reported(run, w)))
    decreases |run|
  {
    if run == [] {
      PlainAddAssociates(UsageAt(s, w), NO_TOKENS, NO_TOKENS);
    } else {
      var s' := Apply(s, run[0]);
      if Gone(s', w) {
        Kills.StaysGone(s', run[1..], w);
      } else {
        StepReports(s, run[0], w);
        UsageIsReported(s', run[1..], w);
        WrappedAdds(PlainAdd(UsageAt(s, w), ReportOf(run[0], w)), Reported(run[1..], w));
        PlainAddAssociates(UsageAt(s, w), ReportOf(run[0], w), Reported(run[1..], w));
      }
    }
  }

  // ----- the aggregation loop -----

  function TokenTotals(sessions: map<SessionId, Session>, ws: set<SessionId>): map<SessionId, nat>
    requires ws <= sessions.Keys
  {
    map w | w in ws :: TotalTokens(sessions[w].usage)
  }

  function ActiveOf(sessions: map<SessionId, Session>): set<SessionId> {
    set w | w in sessions && sessions[w].status.IsActive()
  }

  lemma TokensGrow(sessions: map<SessionId, Session>, seen: set<SessionId>, w: SessionId)
    requires seen <= sessions.Keys && w in sessions && w !in seen
    ensures Word(Total(TokenTotals(sessions, seen + {w}))) ==
            AddU64(Word(Total(TokenTotals(sessions, seen))), TotalTokens(sessions[w].usage))
  {
    TotalsGrow(sessions, seen, w);
    WordSum(Total(TokenTotals(sessions, seen + {w})), Total(TokenTotals(sessions, seen)),
            TotalTokens(sessions[w].usage));
  }

  lemma WordSum(sum: nat, a: nat, b: nat)
    requires sum == a + b
    ensures Word(sum) == AddU64(Word(a), b)
  {
    WordAdds(a, b);
  }

  lemma TotalsGrow(sessions: map<SessionId, Session>, seen: set<SessionId>, w: SessionId)
    requires seen <= sessions.Keys && w in sessions && w !in seen
    ensures Total(TokenTotals(sessions, seen + {w})) ==
            Total(TokenTotals(sessions, seen)) + TotalTokens(sessions[w].usage)
  {
    var before: map<SessionId, nat> := TokenTotals(sessions, seen);
    var after: map<SessionId, nat> := TokenTotals(sessions, seen + {w});
    assert after - {w} == before;
    TotalWithout(after, w);
  }

  lemma NoTokens(sessions: map<SessionId, Session>)
    ensures Word(Total(TokenTotals(sessions, {}))) == 0
  {
    assert TokenTotals(sessions, {}) == map[];
  }

  /** The monitor's pass over the registry, in whatever order the map yields its entries. */
  method Aggregate(sessions: map<SessionId, Session>) returns (active: nat, total: nat, tokens: nat)
    ensures active == |ActiveOf(sessions)| && total == |sessions|
    ensures tokens == Word(Total(TokenTotals(sessions, sessions.Keys)))
  {
    active, tokens := 0, 0;
    var left := sessions.Keys;
    ghost var seen: set<SessionId> := {};
    ghost var all := ActiveOf(sessions);
    NoTokens(sessions);
    while left != {}
      invariant left !! seen && left + seen == sessions.Keys
      invariant active == |all * seen|
      invariant tokens == Word(Total(TokenTotals(sessions, seen)))
    {
      var w :| w in left;
      TokensGrow(sessions, seen, w);
      tokens := AddU64(tokens, TotalTokens(sessions[w].usage));
      CountOneMore(all, seen, w);
      if sessions[w].status.IsActive() { active := active + 1; }
      left, seen := left - {w}, seen + {w};
    }
    assert seen == sessions.Keys && all * seen == all;
    total := |sessions|;
  }

  ghost function Words(m: map<SessionId, nat>): map<SessionId, nat> { map k | k in m :: Word(m[k]) }

  lemma {:induction false} TotalOfWords(m: map<SessionId, nat>)
    ensures Word(Total(Words(m))) == Word(Total(m))
    decreases |m|
  {
    if k :| k in m {
      TotalOfWords(m - {k});
      TotalOfWordsAt(m, k);
    } else {
      assert m == map[] && Words(m) == map[];
    }
  }

  lemma WordsWithout(m: map<SessionId, nat>, k: SessionId)
    requires k in m
    ensures Total(Words(m)) == Word(m[k]) + Total(Words(m - {k}))
  {
    assert Words(m) - {k} == Words(m - {k});
    TotalWithout(Words(m), k);
  }

  lemma TotalOfWordsAt(m: map<SessionId, nat>, k: SessionId)
    requires k in m && Word(Total(Words(m - {k}))) == Word(Total(m - {k}))
    ensures Word(Total(Words(m))) == Word(Total(m))
  {
    WordsWithout(m, k);
    TotalWithout(m, k);
    WordsCongruent(Word(m[k]), Total(Words(m - {k})), m[k], Total(m - {k}));
  }

  lemma TotalOfWrapped(u: TokenUsage)
    ensures TotalTokens(Wrapped(u)) == Word(PlainTotal(u))
  {
    WordsAdd(u.input, u.output);
    WordsAdd(u.input + u.output, u.cacheCreation);
    WordsAdd(u.input + u.output + u.cacheCreation, u.cacheRead);
  }

  ghost function ReportedTotals(run: seq<Step>, ws: set<SessionId>): map<SessionId, nat> {
    map w | w in ws :: PlainTotal(Reported(run, w))
  }

  /** Tokens are conserved: what the monitor shows is the sum of all four counters over all results
      of the sessions still registered, modulo 2^64 and exactly so below 2^64. */
  lemma MonitorCountsResults(run: seq<Step>, sessions: map<SessionId, Session>)
    requires Legal(INIT, run) && sessions == Exec(INIT, run).sessions
    ensures var shown := Word(Total(TokenTotals(sessions, sessions.Keys)));
            var reported := Total(ReportedTotals(run, sessions.Keys));
            shown == Word(reported) && (reported < U64 ==> shown == reported)
  {
    var a, b := TokenTotals(sessions, sessions.Keys), ReportedTotals(run, sessions.Keys);
    forall w | w in a ensures a[w] == Word(b[w]) { SessionCountsResults(run, w); }
    assert a == Words(b);
    TotalOfWords(b);
  }

  lemma SessionCountsResults(run: seq<Step>, w: SessionId)
    requires Legal(INIT, run) && w in Exec(INIT, run).sessions
    ensures TotalTokens(Exec(INIT, run).sessions[w].usage) == Word(PlainTotal(Reported(run, w)))
  {
    UsageIsReported(INIT, run, w);
    PlainAddAssociates(Reported(run, w), NO_TOKENS, NO_TOKENS);
    TotalOfWrapped(Reported(run, w));
  }
}
