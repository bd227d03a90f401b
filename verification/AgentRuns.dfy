/** The promises of the agent loop over whole runs. */
module AgentRuns {
  import opened Messages
  import opened Wrappers
  import opened Compaction
  import opened Cache
  import opened Media
  import opened Streaming
  import opened ToolBatch
  import opened Agent
  import opened AgentProperties

  // ----- Where a run can end -----

  /** The summary a guard asks for: the error guard's follows the results and is paired, the identical-call guard's
      comes before there are any and is not. */
  predicate GuardCall(c: Call) {
    && c.kind.WrapUpCall? && (c.latched ==> Unmarked(c.messages))
    && (Paired(c.messages) <==> c.kind.guard == RepeatedErrors)
  }

  /** All requests but perhaps the last are those of the loop body; the last may be a guard's. */
  predicate FinalCalls(cs: seq<Call>) {
    GoodCalls(cs) || (cs != [] && GoodCalls(cs[..|cs| - 1]) && GuardCall(cs[|cs| - 1]))
  }

  predicate CallBudget(s: State) {
    var n := |s.calls|;
    var body := if n > 0 && s.calls[n - 1].kind.WrapUpCall? then n - 1 else n;
    body <= s.turns + 2 + MAX_CONTEXT_OVERFLOW_RETRIES
  }

  /** What holds however a run ended. */
  predicate Ended(s: State) {
    FinalCalls(s.calls) && CallBudget(s) && WindowFloor(s) && GateLawful(s.gates)
  }

  lemma HeadIsWithinBudget(cfg: Config, s: State)
    requires GoodCalls(s.calls) && CallsCounted(s) && WindowFloor(s) && GateLawful(s.gates)
    ensures Ended(s)
  {
  }

  lemma EndedByWrapUp(s: State, c: Call, t: State)
    requires GoodCalls(s.calls) && CallsCounted(s) && WindowFloor(s) && GateLawful(s.gates)
    requires GuardCall(c)
    requires t.calls == s.calls + [c] && t.turns == s.turns && t.overflowWindow == s.overflowWindow && t.gates == s.gates
    ensures Ended(t)
  {
    assert t.calls[..|t.calls| - 1] == s.calls;
  }

  /** The request of the error guard follows the results and is paired. */
  lemma ErrorWrapUpEnds(cfg: Config, s: State, i: TurnInput)
    requires GoodHistory(s.history) && Replied(cfg, s)
    ensures Ended(WrapUp(cfg, s, RepeatedErrors, i))
  {
    if i.wrapUpCancelled {
      HeadIsWithinBudget(cfg, s);
    } else {
      var messages := Breakpointed(s) + [WrapUpMessage(RepeatedErrors)];
      var c := Call(WrapUpCall(RepeatedErrors), messages, s.cacheLatched);
      SendKeeps(cfg, s, WrapUpCall(RepeatedErrors), messages, i.wrapUp);
      GoodRequest(s);
      PairedAppendPlain(Breakpointed(s), [WrapUpMessage(RepeatedErrors)]);
      EndedByWrapUp(s, c, WrapUp(cfg, s, RepeatedErrors, i));
    }
  }

  /** The request of the identical-call guard is sent before any results exist, so it is never paired. */
  lemma DuplicateWrapUpDangles(s: State, h: seq<Message>, ask: Message)
    requires s.history == h + [ask] && Uses(ask) != [] && Unmarked(s.history)
    ensures GuardCall(Call(WrapUpCall(DuplicateCalls), Breakpointed(s) + [WrapUpMessage(DuplicateCalls)], s.cacheLatched))
  {
    var next := WrapUpMessage(DuplicateCalls);
    var marked := Breakpointed(s);
    MarkKeepsIds(s.history);
    DanglingIsUnpaired(h, ask, next);
    assert h + [ask, next] == s.history + [next];
    PairedSameIds(s.history + [next], marked + [next]);
  }

  lemma DuplicateWrapUpEnds(cfg: Config, s: State, r: Reply, sig: string, i: TurnInput)
    requires GoodHistory(s.history) && CleanReply(r.blocks) && ToolUses(r.blocks) != [] && Replied(cfg, s)
    ensures Ended(WrapUp(cfg, NoteSignature(Remember(s, r), sig), DuplicateCalls, i))
  {
    var n := NoteSignature(Remember(s, r), sig);
    if i.wrapUpCancelled {
      HeadIsWithinBudget(cfg, n);
    } else {
      RememberedHistory(s, r);
      var messages := Breakpointed(n) + [WrapUpMessage(DuplicateCalls)];
      assert Uses(AskMessage(r)) != [];
      DuplicateWrapUpDangles(n, StubHistory(s.history), AskMessage(r));
      SendKeeps(cfg, n, WrapUpCall(DuplicateCalls), messages, i.wrapUp);
      EndedByWrapUp(n, Call(WrapUpCall(DuplicateCalls), messages, n.cacheLatched), WrapUp(cfg, n, DuplicateCalls, i));
    }
  }

  lemma ExecuteEnds(cfg: Config, s: State, r: Reply, i: TurnInput)
    requires GoodHistory(s.history) && CleanReply(r.blocks) && ToolUses(r.blocks) != [] && Replied(cfg, s)
    ensures var uses := ToolUses(r.blocks);
      var (t, v) := Execute(cfg, NoteSignature(Remember(s, r), Signature(uses)), uses, i);
      v.Done? ==> Ended(t)
  {
    var uses := ToolUses(r.blocks);
    var n := NoteSignature(Remember(s, r), Signature(uses));
    var ran := if i.ran < |uses| then i.ran else |uses|;
    var results := SequentialBlocks(uses, i.outs, ran);
    SequentialAnswersAll(uses, i.outs, ran);
    GoodExchange(s, r, results);
    var t := n.(history := n.history + [Message(USER, Blocks(results))],
                toolCalls := n.toolCalls + SequentialRecords(uses, i.outs, ran),
                errStreak := ErrorStreak(n.errStreak, results),
                toolTurns := n.toolTurns + [ToolTurn(Signature(uses), false, ErrorFlags(results))]);
    ErrorWrapUpEnds(cfg, t, i);
    HeadIsWithinBudget(cfg, t);
  }

  lemma SameTrafficEnds(cfg: Config, s: State, t: State)
    requires Replied(cfg, s)
    requires t.calls == s.calls && t.turns == s.turns && t.overflowWindow == s.overflowWindow && t.gates == s.gates
    ensures Ended(t)
  {
    HeadIsWithinBudget(cfg, s);
  }

  lemma RefillEnds(cfg: Config, s: State, r: Reply)
    requires Replied(cfg, s)
    ensures Ended(RefillTruncated(Remember(s, r), ToolUses(r.blocks)).0)
  {
    SameTrafficEnds(cfg, s, RefillTruncated(Remember(s, r), ToolUses(r.blocks)).0);
  }

  lemma CloseEnds(cfg: Config, s: State, r: Reply, i: TurnInput)
    requires Replied(cfg, s)
    ensures Ended(CloseTurn(Remember(s, r), i).0)
  {
    SameTrafficEnds(cfg, s, CloseTurn(Remember(s, r), i).0);
  }

  lemma SettleEnds(cfg: Config, s: State, r: Reply, i: TurnInput)
    requires GoodHistory(s.history) && CleanReply(r.blocks) && Replied(cfg, s)
    ensures var (t, v) := Settle(cfg, s, r, i); v.Done? ==> Ended(t)
  {
    var uses := ToolUses(r.blocks);
    if uses == [] {
      CloseEnds(cfg, s, r, i);
    } else if r.stop == STOP_REASON_MAX_TOKENS {
      RefillEnds(cfg, s, r);
    } else {
      DuplicateWrapUpEnds(cfg, s, r, Signature(uses), i);
      ExecuteEnds(cfg, s, r, i);
    }
  }

  // ----- One turn, then all -----

  lemma TurnReplied(cfg: Config, s: State, i: TurnInput)
    requires AtHead(cfg, s) && HostInput(i)
    ensures var (t, r) := Converse(cfg, AutoCompact(cfg, Begin(s, i), i.gate), i);
      GoodHistory(t.history) && CleanReply(r.blocks) && Replied(cfg, t) && CountersMeanTraces(cfg, t)
  {
    var b := Begin(s, i);
    GoodAppend(s.history, i.steering);
    var c := Compact(b.history, Window(cfg, b), i.gate);
    if c.Compacted? {
      GoodCompact(b.history, Window(cfg, b), i.gate);
    }
    var g := Gate(b, CompactionDue(cfg, b), c);
    GateKeepsHistory(b, CompactionDue(cfg, b), c);
    GateKeepsLaw(b, CompactionDue(cfg, b), c);
    GateKeepsRest(b, CompactionDue(cfg, b), c);
    ConverseKeeps(cfg, g, i);
  }

  lemma GateKeepsRest(s: State, due: bool, c: CompactResult)
    ensures var t := Gate(s, due, c);
      && t.calls == s.calls && t.turns == s.turns && t.toolTurns == s.toolTurns && t.truncStreak == s.truncStreak
      && t.lastSignature == s.lastSignature && t.dupStreak == s.dupStreak && t.errStreak == s.errStreak
      && t.effortLatched == s.effortLatched && t.cacheLatched == s.cacheLatched
      && t.overflowWindow == s.overflowWindow && t.overflows == s.overflows
  {
  }

  lemma ConcludeKeeps(cfg: Config, s: State, r: Reply, i: TurnInput)
    requires GoodHistory(s.history) && CleanReply(r.blocks) && HostInput(i)
    requires Replied(cfg, s) && CountersMeanTraces(cfg, s)
    ensures var (t, v) := Conclude(cfg, s, r, i); if v.Continue? then AtHead(cfg, t) else Ended(t)
  {
    if r.err.Some? {
      HeadIsWithinBudget(cfg, s);
    } else {
      SettleKeeps(cfg, s, r, i);
      SettleEnds(cfg, s, r, i);
    }
  }

  /** A turn takes the loop to another good head, or ends the run within its bounds. */
  lemma TurnKeeps(cfg: Config, s: State, i: TurnInput)
    requires AtHead(cfg, s) && HostInput(i)
    ensures var (t, v) := Turn(cfg, s, i); if v.Continue? then AtHead(cfg, t) else Ended(t)
  {
    if i.cancelled {
      HeadIsWithinBudget(cfg, s);
    } else {
      TurnReplied(cfg, s, i);
      var (t, r) := Converse(cfg, AutoCompact(cfg, Begin(s, i), i.gate), i);
      ConcludeKeeps(cfg, t, r, i);
    }
  }

  /** A run over any inputs: at every loop head the full invariant, and at the end its consequences. */
  lemma {:induction false} RunKeeps(cfg: Config, s: State, ins: seq<TurnInput>)
    requires AtHead(cfg, s) && HostInputs(ins)
    ensures var (t, v) := Run(cfg, s, ins); if v.Continue? then AtHead(cfg, t) else Ended(t)
    decreases |ins|
  {
    if ins != [] {
      TurnKeeps(cfg, s, ins[0]);
      var (t, v) := Turn(cfg, s, ins[0]);
      if v.Continue? {
        RunKeeps(cfg, t, ins[1..]);
      }
    }
  }

  lemma StartIsHead(cfg: Config, history: seq<Message>)
    requires Paired(history) && Unmarked(history)
    ensures AtHead(cfg, Agent.Start(history))
  {
  }

  // ----- The promises -----

  lemma FinalCallAt(cs: seq<Call>, k: nat)
    requires FinalCalls(cs) && k < |cs|
    ensures Paired(cs[k].messages) <==> cs[k].kind != WrapUpCall(DuplicateCalls)
    ensures cs[k].latched ==> Unmarked(cs[k].messages)
    ensures cs[k].kind.WrapUpCall? ==> k == |cs| - 1
  {
    if k < |cs| - 1 && !GoodCalls(cs) {
      assert cs[k] == cs[..|cs| - 1][k];
    }
    assert GoodCall(cs[k]) || (k == |cs| - 1 && GuardCall(cs[k]));
  }

  /** From a paired, unmarked history a request of a run pairs tools with results exactly when it is not the summary
      of the identical-call guard, and every request is mark-free once marks were given up. */
  lemma EveryRequestIsPaired(cfg: Config, history: seq<Message>, ins: seq<TurnInput>, k: nat)
    requires Paired(history) && Unmarked(history) && HostInputs(ins)
    ensures var cs := Run(cfg, Agent.Start(history), ins).0.calls;
      k < |cs| ==>
        && (Paired(cs[k].messages) <==> cs[k].kind != WrapUpCall(DuplicateCalls))
        && (cs[k].latched ==> Unmarked(cs[k].messages))
  {
    StartIsHead(cfg, history);
    RunKeeps(cfg, Agent.Start(history), ins);
    var t := Run(cfg, Agent.Start(history), ins).0;
    assert FinalCalls(t.calls);
    if k < |t.calls| {
      FinalCallAt(t.calls, k);
    }
  }

  /** However a run ends, T turns sent at most T + 5 requests from the loop body, and only the very last request can
      be a guard's summary. */
  lemma RequestsAreBounded(cfg: Config, history: seq<Message>, ins: seq<TurnInput>, k: nat)
    requires Paired(history) && Unmarked(history) && HostInputs(ins)
    ensures CallBudget(Run(cfg, Agent.Start(history), ins).0)
    ensures var cs := Run(cfg, Agent.Start(history), ins).0.calls;
      k < |cs| && cs[k].kind.WrapUpCall? ==> k == |cs| - 1
  {
    StartIsHead(cfg, history);
    RunKeeps(cfg, Agent.Start(history), ins);
    var t := Run(cfg, Agent.Start(history), ins).0;
    assert FinalCalls(t.calls);
    if k < |t.calls| {
      FinalCallAt(t.calls, k);
    }
  }

  // ----- A run that ends in the unpaired summary -----

  /** A first turn that asks for one tool and is not truncated. */
  function AskingTurn(outs: nat -> ToolOutcome): TurnInput {
    var failing, silent := Summaries(Broken, Broken), StreamOutcome([], None);
    TurnInput(false, [], failing, StreamOutcome([ToolUseStart(0, "t", "a")], None), silent, silent, failing, silent, false,
              [], outs, 1, false, false, silent)
  }

  lemma AskingReply(tokens: nat, parse: string -> string)
    ensures var d := AbsorbAll(Draft([], map[], "", tokens, false), [ToolUseStart(0, "t", "a")], true, parse);
      d.stop == "" && ToolUses(Cleaned(d.blocks)) != []
  {
    var ask := Block(ToolUse, id := "t", name := "a");
    var bs := Grown([], 0);
    assert bs[0 := ask] == [ask];
    assert [ask][1..] == [];
    assert Cleaned([ask]) == Kept(ask) + Cleaned([]) == [ask];
    assert ToolUses([ask]) == [ask] + ToolUses([]);
  }

  lemma AskingConverse(cfg: Config, g: State, i: TurnInput)
    requires i == AskingTurn(i.outs)
    ensures var (t, r) := Converse(cfg, g, i);
      && r.err.None? && r.stop == "" && ToolUses(r.blocks) != [] && |t.calls| == |g.calls| + 1
  {
    AskingReply(g.contextTokens, cfg.parse);
    SendKeeps(cfg, g, TurnCall, Breakpointed(g), i.first);
  }

  /** With a limit of one, any request for tools counts as a repetition. */
  lemma AskingSettles(cfg: Config, s: State, r: Reply, i: TurnInput)
    requires cfg.maxIdentical == 1 && ToolUses(r.blocks) != [] && r.stop == "" && !i.wrapUpCancelled
    ensures var (t, v) := Settle(cfg, s, r, i);
      && v == Done(NoProgress(DuplicateCalls)) && |t.calls| == |s.calls| + 1
      && t.calls[|s.calls|].kind == WrapUpCall(DuplicateCalls)
  {
    var n := NoteSignature(Remember(s, r), Signature(ToolUses(r.blocks)));
    SendKeeps(cfg, n, WrapUpCall(DuplicateCalls), Breakpointed(n) + [WrapUpMessage(DuplicateCalls)], i.wrapUp);
  }

  lemma AskingTurnEnds(cfg: Config, history: seq<Message>, i: TurnInput)
    requires cfg.maxIdentical == 1 && i == AskingTurn(i.outs)
    ensures var (t, v) := Turn(cfg, Agent.Start(history), i);
      v == Done(NoProgress(DuplicateCalls)) && |t.calls| == 2 && t.calls[1].kind == WrapUpCall(DuplicateCalls)
  {
    var b := Begin(Agent.Start(history), i);
    GateKeepsRest(b, CompactionDue(cfg, b), Compact(b.history, Window(cfg, b), i.gate));
    var g := AutoCompact(cfg, b, i.gate);
    AskingConverse(cfg, g, i);
    var (t, r) := Converse(cfg, g, i);
    AskingSettles(cfg, t, r, i);
  }

  lemma OneTurn(cfg: Config, s: State, i: TurnInput)
    requires Turn(cfg, s, i).1.Done?
    ensures Run(cfg, s, [i]) == Turn(cfg, s, i)
  {
  }

  /** With a limit of one, a run over one such turn ends in a summary request that leaves a tool request unanswered. */
  lemma LimitOneDangles(cfg: Config, history: seq<Message>, outs: nat -> ToolOutcome)
    requires cfg.maxIdentical == 1 && Paired(history) && Unmarked(history)
    ensures var (t, v) := Run(cfg, Agent.Start(history), [AskingTurn(outs)]);
      && v == Done(NoProgress(DuplicateCalls))
      && |t.calls| == 2 && t.calls[1].kind == WrapUpCall(DuplicateCalls) && !Paired(t.calls[1].messages)
  {
    var i := AskingTurn(outs);
    AskingTurnEnds(cfg, history, i);
    OneTurn(cfg, Agent.Start(history), i);
    EveryRequestIsPaired(cfg, history, [i], 1);
  }

  // ----- Every loop head of a run -----

  /** The states at the loop head of a run still going: each turn leads from one to the next. */
  ghost predicate Chained(turn: TurnFunction, heads: seq<State>, ins: seq<TurnInput>) {
    |heads| == |ins| + 1
    && forall k {:trigger ins[k]} :: 0 <= k < |ins| ==> turn(heads[k], ins[k]) == (heads[k + 1], Continue)
  }

  ghost predicate Heads(cfg: Config, s: State, heads: seq<State>, ins: seq<TurnInput>) {
    Chained(TurnOf(cfg), heads, ins) && heads[0] == s
  }

  lemma ChainTail(turn: TurnFunction, heads: seq<State>, ins: seq<TurnInput>)
    requires Chained(turn, heads, ins) && ins != []
    ensures turn(heads[0], ins[0]) == (heads[1], Continue) && Chained(turn, heads[1..], ins[1..])
  {
    forall k | 0 <= k < |ins[1..]| ensures turn(heads[1..][k], ins[1..][k]) == (heads[1..][k + 1], Continue) {
      assert ins[1..][k] == ins[k + 1];
    }
  }

  lemma ChainCons(turn: TurnFunction, s: State, i: TurnInput, rest: seq<State>, ins: seq<TurnInput>)
    requires Chained(turn, rest, ins) && turn(s, i) == (rest[0], Continue)
    ensures Chained(turn, [s] + rest, [i] + ins)
  {
    forall k | 0 <= k < |[i] + ins| ensures turn(([s] + rest)[k], ([i] + ins)[k]) == (([s] + rest)[k + 1], Continue) {
      if k > 0 {
        assert ([i] + ins)[k] == ins[k - 1];
      }
    }
  }

  lemma {:induction false} ChainRepeats(turn: TurnFunction, heads: seq<State>, ins: seq<TurnInput>)
    requires Chained(turn, heads, ins)
    ensures Repeat(turn, heads[0], ins) == (heads[|ins|], Continue)
    decreases |ins|
  {
    if ins != [] {
      ChainTail(turn, heads, ins);
      ChainRepeats(turn, heads[1..], ins[1..]);
    }
  }

  lemma {:induction false} RepeatIsChained(turn: TurnFunction, s: State, ins: seq<TurnInput>) returns (heads: seq<State>)
    requires Repeat(turn, s, ins).1.Continue?
    ensures Chained(turn, heads, ins) && heads[0] == s
    decreases |ins|
  {
    if ins == [] {
      heads := [s];
    } else {
      var rest := RepeatIsChained(turn, turn(s, ins[0]).0, ins[1..]);
      ChainCons(turn, s, ins[0], rest, ins[1..]);
      heads := [s] + rest;
      assert [ins[0]] + ins[1..] == ins;
    }
  }

  /** Such a list of heads is just what a run still going passes through. */
  lemma HeadsAreRun(cfg: Config, s: State, heads: seq<State>, ins: seq<TurnInput>)
    requires Heads(cfg, s, heads, ins)
    ensures Run(cfg, s, ins) == (heads[|ins|], Continue)
  {
    ChainRepeats(TurnOf(cfg), heads, ins);
  }

  lemma RunHasHeads(cfg: Config, s: State, ins: seq<TurnInput>) returns (heads: seq<State>)
    requires Run(cfg, s, ins).1.Continue?
    ensures Heads(cfg, s, heads, ins)
  {
    heads := RepeatIsChained(TurnOf(cfg), s, ins);
  }

  lemma StepKept(cfg: Config, s: State, i: TurnInput, t: State)
    requires AtHead(cfg, s) && HostInput(i) && TurnOf(cfg)(s, i) == (t, Continue)
    ensures AtHead(cfg, t)
  {
    TurnKeeps(cfg, s, i);
  }

  /** What the steps from head j on keep still holds at head k. */
  lemma {:induction false} ChainKeeps(heads: seq<State>, j: nat, k: nat, inv: State -> bool)
    requires j <= k < |heads| && inv(heads[j])
    requires forall m {:trigger inv(heads[m])} :: j <= m < k && inv(heads[m]) ==> inv(heads[m + 1])
    ensures inv(heads[k])
    decreases k
  {
    if j < k {
      ChainKeeps(heads, j, k - 1, inv);
    }
  }

  lemma HeadStepKept(cfg: Config, s: State, heads: seq<State>, ins: seq<TurnInput>, j: nat)
    requires HostInputs(ins) && Heads(cfg, s, heads, ins) && j < |ins| && AtHead(cfg, heads[j])
    ensures AtHead(cfg, heads[j + 1])
  {
    StepKept(cfg, heads[j], ins[j], heads[j + 1]);
  }

  /** The loop-head invariant at every head of every run. */
  lemma HeadsKept(cfg: Config, history: seq<Message>, heads: seq<State>, ins: seq<TurnInput>, k: nat)
    requires Paired(history) && Unmarked(history) && HostInputs(ins)
    requires Heads(cfg, Agent.Start(history), heads, ins) && k <= |ins|
    ensures AtHead(cfg, heads[k])
  {
    StartIsHead(cfg, history);
    var inv := s => AtHead(cfg, s);
    forall j | 0 <= j < k && inv(heads[j]) ensures inv(heads[j + 1]) {
      HeadStepKept(cfg, Agent.Start(history), heads, ins, j);
    }
    ChainKeeps(heads, 0, k, inv);
  }

  /** At every loop head the history itself is paired and unmarked, every request sent so far is paired, and the
      counters are the trailing runs of the trace, below their limits. */
  lemma EveryHeadIsGood(cfg: Config, history: seq<Message>, heads: seq<State>, ins: seq<TurnInput>, k: nat)
    requires Paired(history) && Unmarked(history) && HostInputs(ins)
    requires Heads(cfg, Agent.Start(history), heads, ins) && k <= |ins|
    ensures var s := heads[k];
      && Paired(s.history) && Unmarked(s.history) && GoodCalls(s.calls)
      && s.truncStreak == TrailingTruncated(s.toolTurns) <= 2
      && s.dupStreak == TrailingSame(Executed(s.toolTurns)) < MaxIdentical(cfg)
      && s.errStreak == TrailingTrue(AllErrors(s.toolTurns)) <= 4
  {
    HeadsKept(cfg, history, heads, ins, k);
  }

  /** A run of T turns still going has sent at most T + 5 requests. */
  lemma RequestsAtHead(cfg: Config, history: seq<Message>, heads: seq<State>, ins: seq<TurnInput>, k: nat)
    requires Paired(history) && Unmarked(history) && HostInputs(ins)
    requires Heads(cfg, Agent.Start(history), heads, ins) && k <= |ins|
    ensures heads[k].turns <= |heads[k].calls| <= heads[k].turns + 5
  {
    HeadsKept(cfg, history, heads, ins, k);
  }

  /** In every run the compaction verdicts obey the cooldown law, so its consequences hold of them. */
  lemma CompactionIsThrottled(cfg: Config, history: seq<Message>, heads: seq<State>, ins: seq<TurnInput>, k: nat, i: nat, j: nat)
    requires Paired(history) && Unmarked(history) && HostInputs(ins)
    requires Heads(cfg, Agent.Start(history), heads, ins) && k <= |ins| && i < j < |heads[k].gates|
    ensures Throttled(heads[k].gates, i, j)
  {
    HeadsKept(cfg, history, heads, ins, k);
    LawfulIsThrottled(heads[k].gates, i, j);
  }

  /** Before verdict i at most three failures in a row; after a failure no attempt for three turns; after three none. */
  predicate Throttled(gs: seq<GateVerdict>, i: nat, j: nat)
    requires i < j < |gs|
  {
    && GateState(gs[..i]).0 <= 3
    && (gs[i] == AttemptFailed && j <= i + 3 ==> gs[j] == Cooling || gs[j] == Disabled)
    && (GateState(gs[..i]).0 == 3 ==> gs[j] == Disabled)
  }

  lemma LawfulIsThrottled(gs: seq<GateVerdict>, i: nat, j: nat)
    requires GateLawful(gs) && i < j < |gs|
    ensures Throttled(gs, i, j)
  {
    FailuresBounded(gs, i);
    if gs[i] == AttemptFailed && j <= i + 3 {
      CooldownHolds(gs, i, j);
    }
    if GateState(gs[..i]).0 == COMPACT_FAILURE_LIMIT {
      ThirdFailureDisables(gs, i, j);
    }
  }

  // ----- The effective window -----

  /** From s to t the window did not grow, and above its floor every recovery made it smaller. */
  predicate Narrowed(cfg: Config, s: State, t: State) {
    && Window(cfg, t) <= Window(cfg, s) && t.overflows >= s.overflows
    && (t.overflows > s.overflows && Window(cfg, s) > MIN_CONTEXT_OVERFLOW_WINDOW ==> Window(cfg, t) < Window(cfg, s))
  }

  lemma ConverseWindow(cfg: Config, s: State, i: TurnInput)
    requires WindowFloor(s)
    ensures var t := Converse(cfg, s, i).0; WindowFloor(t) && Narrowed(cfg, s, t)
  {
    var (s1, r1) := Send(cfg, s, TurnCall, Breakpointed(s), i.first);
    var (s2, r2) := AfterEffort(cfg, s1, r1, i.afterEffort);
    var (s3, r3) := AfterCache(cfg, s2, r2, i.afterCache);
    assert s3.overflowWindow == s.overflowWindow && s3.overflows == s.overflows;
    if r3.err.Some? {
      OverflowShrinksWindow(cfg, s3, r3.err.value, i.recovery);
    }
  }

  lemma SettleWindow(cfg: Config, s: State, r: Reply, i: TurnInput)
    ensures var t := Settle(cfg, s, r, i).0; t.overflowWindow == s.overflowWindow && t.overflows == s.overflows
  {
  }

  lemma TurnWindow(cfg: Config, s: State, i: TurnInput)
    requires WindowFloor(s)
    ensures var t := Turn(cfg, s, i).0; WindowFloor(t) && Narrowed(cfg, s, t)
  {
    if !i.cancelled {
      var b := Begin(s, i);
      GateKeepsRest(b, CompactionDue(cfg, b), Compact(b.history, Window(cfg, b), i.gate));
      var g := AutoCompact(cfg, b, i.gate);
      ConverseWindow(cfg, g, i);
      var (t, r) := Converse(cfg, g, i);
      SettleWindow(cfg, t, r, i);
    }
  }

  function Lower(a: nat, b: nat): nat {
    if a < b then a else b
  }

  lemma HeadStepWindow(cfg: Config, s: State, heads: seq<State>, ins: seq<TurnInput>, m: nat)
    requires Heads(cfg, s, heads, ins) && m < |ins| && WindowFloor(heads[m])
    ensures WindowFloor(heads[m + 1]) && Narrowed(cfg, heads[m], heads[m + 1])
  {
    StepWindow(cfg, heads[m], ins[m], heads[m + 1]);
  }

  lemma FloorKept(cfg: Config, s: State, heads: seq<State>, ins: seq<TurnInput>, k: nat)
    requires WindowFloor(s) && Heads(cfg, s, heads, ins) && k <= |ins|
    ensures WindowFloor(heads[k])
  {
    var inv := t => WindowFloor(t);
    forall m | 0 <= m < k && inv(heads[m]) ensures inv(heads[m + 1]) {
      HeadStepWindow(cfg, s, heads, ins, m);
    }
    ChainKeeps(heads, 0, k, inv);
  }

  lemma StepWindow(cfg: Config, s: State, i: TurnInput, t: State)
    requires WindowFloor(s) && TurnOf(cfg)(s, i) == (t, Continue)
    ensures WindowFloor(t) && Narrowed(cfg, s, t)
  {
    TurnWindow(cfg, s, i);
  }

  /** Between two loop heads with an overflow recovery in between, the window has become smaller, if it was above
      32000; and whatever happens it does not grow. */
  lemma RecoveriesNarrowWindow(cfg: Config, s: State, heads: seq<State>, ins: seq<TurnInput>, j: nat, k: nat)
    requires WindowFloor(s) && Heads(cfg, s, heads, ins) && j <= k <= |ins|
    ensures Narrowed(cfg, heads[j], heads[k])
  {
    FloorKept(cfg, s, heads, ins, j);
    var first := heads[j];
    var inv := t => WindowFloor(t) && Narrowed(cfg, first, t);
    forall m | j <= m < k && inv(heads[m]) ensures inv(heads[m + 1]) {
      HeadStepWindow(cfg, s, heads, ins, m);
      NarrowedFurther(cfg, first, heads[m], heads[m + 1]);
    }
    ChainKeeps(heads, j, k, inv);
  }

  lemma NarrowedFurther(cfg: Config, s: State, t: State, u: State)
    requires Narrowed(cfg, s, t) && Narrowed(cfg, t, u)
    ensures Narrowed(cfg, s, u)
  {
  }

  /** From one loop head to any later one the window never grows, and it never falls below the smaller of the
      configured window and 32000. */
  lemma WindowNeverGrows(cfg: Config, s: State, heads: seq<State>, ins: seq<TurnInput>, j: nat, k: nat)
    requires WindowFloor(s) && Heads(cfg, s, heads, ins) && j <= k <= |ins|
    ensures Window(cfg, heads[k]) <= Window(cfg, heads[j])
    ensures Window(cfg, heads[k]) >= Lower(Window(cfg, heads[k].(overflowWindow := 0)), MIN_CONTEXT_OVERFLOW_WINDOW)
  {
    FloorKept(cfg, s, heads, ins, k);
    RecoveriesNarrowWindow(cfg, s, heads, ins, j, k);
  }

  // ----- Images -----

  /** Right after a reply was taken into the history no message shows an image of its own. */
  lemma RememberShowsNoImages(s: State, r: Reply, k: nat)
    requires k < |Remember(s, r).history|
    ensures !ShowsImage(Remember(s, r).history[k])
  {
    StubHistoryKeeps(s.history + [Message(ASSISTANT, Blocks(r.blocks))]);
  }

  predicate AnswerOnly(m: Message) {
    m.content.Blocks? && forall j :: 0 <= j < |m.content.blocks| ==> m.content.blocks[j].typ == ToolResult
  }

  predicate AddsAnswer(h: seq<Message>, g: seq<Message>) {
    |g| == |h| + 1 && g[..|h|] == h && AnswerOnly(g[|h|])
  }

  lemma RefillAddsAnswer(t: State, uses: seq<Block>)
    ensures AddsAnswer(t.history, RefillTruncated(t, uses).0.history)
  {
    assert AnswerOnly(Message(USER, Blocks(TruncatedBlocks(uses))));
  }

  lemma ExecuteAddsAnswer(cfg: Config, n: State, uses: seq<Block>, i: TurnInput)
    requires Execute(cfg, n, uses, i).1.Continue?
    ensures AddsAnswer(n.history, Execute(cfg, n, uses, i).0.history)
  {
    var results := SequentialBlocks(uses, i.outs, if i.ran < |uses| then i.ran else |uses|);
    SequentialAnswersAll(uses, i.outs, if i.ran < |uses| then i.ran else |uses|);
    assert AnswerOnly(Message(USER, Blocks(results)));
  }

  /** A turn that asked for tools and goes on adds one message, made of tool results only. */
  lemma ToolTurnAddsAnswers(cfg: Config, s: State, r: Reply, i: TurnInput)
    requires ToolUses(r.blocks) != [] && Settle(cfg, s, r, i).1.Continue?
    ensures AddsAnswer(Remember(s, r).history, Settle(cfg, s, r, i).0.history)
  {
    var t, uses := Remember(s, r), ToolUses(r.blocks);
    RefillAddsAnswer(t, uses);
    var n := NoteSignature(t, Signature(uses));
    if Execute(cfg, n, uses, i).1.Continue? {
      ExecuteAddsAnswer(cfg, n, uses, i);
    }
  }

  /** So after such a turn no message shows an image of its own. */
  lemma ToolTurnShowsNoImages(cfg: Config, s: State, r: Reply, i: TurnInput, k: nat)
    requires ToolUses(r.blocks) != []
    requires Settle(cfg, s, r, i).1.Continue? && k < |Settle(cfg, s, r, i).0.history|
    ensures !ShowsImage(Settle(cfg, s, r, i).0.history[k])
  {
    var h := Remember(s, r).history;
    ToolTurnAddsAnswers(cfg, s, r, i);
    if k < |h| {
      RememberShowsNoImages(s, r, k);
      assert Settle(cfg, s, r, i).0.history[..|h|][k] == h[k];
    }
  }
}
