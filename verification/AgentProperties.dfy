/** What every run of the agent loop keeps. */
module AgentProperties {
  import opened Text
  import opened Messages
  import opened Wrappers
  import opened Compaction
  import opened Cache
  import opened Media
  import opened Streaming
  import opened ToolBatch
  import opened Agent

  /** The host hands in plain, unmarked messages from a person. */
  predicate HostInput(i: TurnInput) {
    AllHuman(i.steering) && Unmarked(i.steering) && AllHuman(i.followUps) && Unmarked(i.followUps)
  }

  predicate HostInputs(ins: seq<TurnInput>) {
    forall k :: 0 <= k < |ins| ==> HostInput(ins[k])
  }

  // ----- Pairing and marks of the history -----

  predicate GoodHistory(h: seq<Message>) {
    Paired(h) && Unmarked(h)
  }

  lemma GoodAppend(h: seq<Message>, ms: seq<Message>)
    requires GoodHistory(h) && AllHuman(ms) && Unmarked(ms)
    ensures GoodHistory(h + ms)
  {
    PairedAppendPlain(h, ms);
  }

  lemma GoodCompact(h: seq<Message>, window: int, sums: Summaries)
    requires GoodHistory(h) && Compact(h, window, sums).Compacted?
    ensures GoodHistory(Compact(h, window, sums).messages)
  {
    CompactKeepsPairing(h, window, sums);
    var r := Compact(h, window, sums);
    forall i | 0 <= i < |r.messages| ensures MessageMarks(r.messages[i]) == 0 {
      if i > 0 {
        assert r.messages[i] == r.messages[1..][i - 1] == h[r.removed..][i - 1];
      }
    }
  }

  /** A request built from a good history is paired; it bears marks only while they have not been given up. */
  lemma GoodRequest(s: State)
    requires GoodHistory(s.history)
    ensures Paired(Breakpointed(s)) && (s.cacheLatched ==> Unmarked(Breakpointed(s)))
  {
    MarkKeepsPairing(s.history);
  }

  // ----- What is true at every loop head -----

  predicate IsRerun(k: CallKind) {
    k.EffortRerun? || k.CacheRerun? || k.OverflowRerun?
  }

  /** A request of the loop body that the upstream can accept: tools answered in pairs, no marks once given up or on
      a rerun. */
  predicate GoodCall(c: Call) {
    !c.kind.WrapUpCall? && Paired(c.messages) && (c.latched || IsRerun(c.kind) ==> Unmarked(c.messages))
  }

  predicate GoodCalls(cs: seq<Call>) {
    forall k :: 0 <= k < |cs| ==> GoodCall(cs[k])
  }

  function Bit(b: bool): nat {
    if b then 1 else 0
  }

  /** Requests sent by the loop body: one a turn, and one more for each latch set and each overflow recovered. */
  predicate CallsCounted(s: State) {
    |s.calls| == s.turns + Bit(s.effortLatched) + Bit(s.cacheLatched) + s.overflows
    && s.overflows <= MAX_CONTEXT_OVERFLOW_RETRIES
  }

  predicate WindowFloor(s: State) {
    s.overflowWindow == 0 || s.overflowWindow >= MIN_CONTEXT_OVERFLOW_WINDOW
  }

  function TrailingTruncated(ts: seq<ToolTurn>): nat {
    if ts == [] || !ts[|ts| - 1].truncated then 0 else 1 + TrailingTruncated(ts[..|ts| - 1])
  }

  /** Signatures of the turns whose tools were not cut short. */
  function Executed(ts: seq<ToolTurn>): seq<string> {
    if ts == [] then []
    else Executed(ts[..|ts| - 1]) + if ts[|ts| - 1].truncated then [] else [ts[|ts| - 1].signature]
  }

  function TrailingSame(sigs: seq<string>): nat {
    if sigs == [] then 0
    else if |sigs| > 1 && sigs[|sigs| - 1] == sigs[|sigs| - 2] then 1 + TrailingSame(sigs[..|sigs| - 1])
    else 1
  }

  /** Error flags of all executed results of the run, in order. */
  function AllErrors(ts: seq<ToolTurn>): seq<bool> {
    if ts == [] then [] else AllErrors(ts[..|ts| - 1]) + ts[|ts| - 1].errors
  }

  function TrailingTrue(bs: seq<bool>): nat {
    if bs == [] || !bs[|bs| - 1] then 0 else 1 + TrailingTrue(bs[..|bs| - 1])
  }

  predicate CountersMeanTraces(cfg: Config, s: State) {
    && s.truncStreak == TrailingTruncated(s.toolTurns) <= MAX_TRUNCATION_RETRIES
    && s.dupStreak == TrailingSame(Executed(s.toolTurns)) < MaxIdentical(cfg)
    && s.lastSignature == (if Executed(s.toolTurns) == [] then "" else Executed(s.toolTurns)[|Executed(s.toolTurns)| - 1])
    && s.errStreak == TrailingTrue(AllErrors(s.toolTurns)) < MAX_CONSECUTIVE_TOOL_ERRORS
    && (forall k :: 0 <= k < |Executed(s.toolTurns)| ==> Executed(s.toolTurns)[k] != "")
  }

  /** Failures in a row and turns still to skip, as the verdicts so far determine them. */
  function GateState(gs: seq<GateVerdict>): (nat, nat) {
    if gs == [] then (0, 0)
    else
      var (failures, cooldown) := GateState(gs[..|gs| - 1]);
      AfterVerdict(failures, cooldown, gs[|gs| - 1])
  }

  function AfterVerdict(failures: nat, cooldown: nat, v: GateVerdict): (nat, nat) {
    match v
    case Cooling => (failures, if cooldown > 0 then cooldown - 1 else 0)
    case AttemptFailed => (failures + 1, COMPACT_FAILURE_COOLDOWN_TURNS)
    case AttemptSucceeded => (0, 0)
    case _ => (failures, cooldown)
  }

  /** Each verdict is the one the state before it calls for. */
  predicate GateLawful(gs: seq<GateVerdict>) {
    gs == [] ||
    (GateLawful(gs[..|gs| - 1]) &&
     var (failures, cooldown) := GateState(gs[..|gs| - 1]);
     && (gs[|gs| - 1] == Disabled <==> failures >= COMPACT_FAILURE_LIMIT)
     && (gs[|gs| - 1] == Cooling <==> failures < COMPACT_FAILURE_LIMIT && cooldown > 0))
  }

  predicate GateKept(s: State) {
    |s.gates| == s.turns && GateLawful(s.gates) && GateState(s.gates) == (s.failures, s.cooldown)
  }

  predicate AtHead(cfg: Config, s: State) {
    GoodHistory(s.history) && GoodCalls(s.calls) && CallsCounted(s) && WindowFloor(s)
    && CountersMeanTraces(cfg, s) && GateKept(s)
  }

  // ----- The compaction gate -----

  lemma GateKeepsHistory(s: State, due: bool, c: CompactResult)
    requires GoodHistory(s.history) && (c.Compacted? ==> GoodHistory(c.messages))
    ensures GoodHistory(Gate(s, due, c).history)
  {
  }

  lemma LawfulAppend(gs: seq<GateVerdict>, v: GateVerdict)
    requires GateLawful(gs)
    requires v == Disabled <==> GateState(gs).0 >= COMPACT_FAILURE_LIMIT
    requires v == Cooling <==> GateState(gs).0 < COMPACT_FAILURE_LIMIT && GateState(gs).1 > 0
    ensures GateLawful(gs + [v])
  {
    assert (gs + [v])[..|gs|] == gs;
  }

  lemma GateStep(gs: seq<GateVerdict>, v: GateVerdict)
    ensures GateState(gs + [v]) == AfterVerdict(GateState(gs).0, GateState(gs).1, v)
  {
    assert (gs + [v])[..|gs|] == gs;
  }

  lemma GateVerdictOf(s: State, due: bool, c: CompactResult) returns (v: GateVerdict)
    ensures var t := Gate(s, due, c);
      t.gates == s.gates + [v] && (t.failures, t.cooldown) == AfterVerdict(s.failures, s.cooldown, v) && t.turns == s.turns
    ensures v == Disabled <==> s.failures >= COMPACT_FAILURE_LIMIT
    ensures v == Cooling <==> s.failures < COMPACT_FAILURE_LIMIT && s.cooldown > 0
  {
    v := if s.failures >= COMPACT_FAILURE_LIMIT then Disabled
         else if s.cooldown > 0 then Cooling
         else if !due then BelowThreshold
         else match c
              case NothingToCompact => NothingYet
              case Failed => AttemptFailed
              case Compacted(_, _) => AttemptSucceeded;
  }

  lemma GateKeepsLaw(s: State, due: bool, c: CompactResult)
    requires |s.gates| + 1 == s.turns && GateLawful(s.gates) && GateState(s.gates) == (s.failures, s.cooldown)
    ensures GateKept(Gate(s, due, c))
  {
    var v := GateVerdictOf(s, due, c);
    GateStep(s.gates, v);
    LawfulAppend(s.gates, v);
  }

  lemma {:induction false} LawfulPrefix(gs: seq<GateVerdict>, k: nat)
    requires GateLawful(gs) && k <= |gs|
    ensures GateLawful(gs[..k])
    decreases |gs|
  {
    if k < |gs| {
      LawfulPrefix(gs[..|gs| - 1], k);
      assert gs[..|gs| - 1][..k] == gs[..k];
    } else {
      assert gs[..k] == gs;
    }
  }

  /** The law at one position. */
  lemma LawfulAt(gs: seq<GateVerdict>, k: nat)
    requires GateLawful(gs) && k < |gs|
    ensures var (failures, cooldown) := GateState(gs[..k]);
      && (gs[k] == Disabled <==> failures >= COMPACT_FAILURE_LIMIT)
      && (gs[k] == Cooling <==> failures < COMPACT_FAILURE_LIMIT && cooldown > 0)
    ensures GateState(gs[..k + 1]) == GateState(gs[..k] + [gs[k]])
  {
    LawfulPrefix(gs, k + 1);
    assert gs[..k + 1][..k] == gs[..k] && gs[..k + 1] == gs[..k] + [gs[k]];
  }

  /** Within three turns after a failed compaction none is attempted. */
  lemma {:induction false} CooldownHolds(gs: seq<GateVerdict>, i: nat, j: nat)
    requires GateLawful(gs) && i < j < |gs| && j <= i + COMPACT_FAILURE_COOLDOWN_TURNS
    requires gs[i] == AttemptFailed
    ensures gs[j] == Cooling || gs[j] == Disabled
    ensures GateState(gs[..j]).1 >= i + 1 + COMPACT_FAILURE_COOLDOWN_TURNS - j || gs[j] == Disabled
    decreases j
  {
    LawfulAt(gs, j);
    LawfulAt(gs, j - 1);
    GateStep(gs[..j - 1], gs[j - 1]);
    if j > i + 1 {
      CooldownHolds(gs, i, j - 1);
    }
  }

  /** Failures in a row never exceed three. */
  lemma {:induction false} FailuresBounded(gs: seq<GateVerdict>, i: nat)
    requires GateLawful(gs) && i <= |gs|
    ensures GateState(gs[..i]).0 <= COMPACT_FAILURE_LIMIT
  {
    if i > 0 {
      FailuresBounded(gs, i - 1);
      LawfulAt(gs, i - 1);
      GateStep(gs[..i - 1], gs[i - 1]);
    }
  }

  /** From the third failure in a row on no compaction is attempted any more. */
  lemma {:induction false} ThirdFailureDisables(gs: seq<GateVerdict>, i: nat, j: nat)
    requires GateLawful(gs) && i <= j < |gs|
    requires GateState(gs[..i]).0 == COMPACT_FAILURE_LIMIT
    ensures gs[j] == Disabled && GateState(gs[..j]).0 == COMPACT_FAILURE_LIMIT
    decreases j
  {
    LawfulAt(gs, j);
    if i < j {
      ThirdFailureDisables(gs, i, j - 1);
      LawfulAt(gs, j - 1);
      GateStep(gs[..j - 1], gs[j - 1]);
    }
  }

  function FailedAttempts(gs: seq<GateVerdict>): nat {
    if gs == [] then 0 else FailedAttempts(gs[..|gs| - 1]) + if gs[|gs| - 1] == AttemptFailed then 1 else 0
  }

  /** A success forgets every failure before it, and nothing else does: what counts is the failed attempts since. */
  lemma {:induction false} SuccessClears(gs: seq<GateVerdict>, i: nat, j: nat)
    requires i <= j <= |gs| && (i > 0 ==> gs[i - 1] == AttemptSucceeded)
    requires forall k :: i <= k < j ==> gs[k] != AttemptSucceeded
    ensures GateState(gs[..j]).0 == FailedAttempts(gs[i..j])
    ensures i == j ==> GateState(gs[..j]).1 == 0
    decreases j
  {
    if i < j {
      SuccessClears(gs, i, j - 1);
      assert gs[..j] == gs[..j - 1] + [gs[j - 1]];
      GateStep(gs[..j - 1], gs[j - 1]);
      assert gs[i..j][..j - i - 1] == gs[i..j - 1];
    } else if i > 0 {
      assert gs[..i] == gs[..i - 1] + [gs[i - 1]];
      GateStep(gs[..i - 1], gs[i - 1]);
    }
  }

  predicate SameLast(a: seq<Message>, b: seq<Message>) {
    a != [] && b != [] && a[|a| - 1] == b[|b| - 1]
  }

  /** The last message survives the gate. */
  lemma GateKeepsLastMessage(cfg: Config, s: State, sums: Summaries)
    requires s.history != []
    ensures SameLast(AutoCompact(cfg, s, sums).history, s.history)
  {
    var window := Window(cfg, s);
    CompactKeepsLast(s.history, window, sums);
    GateKeepsLast(s, CompactionDue(cfg, s), Compact(s.history, window, sums));
  }

  lemma GateKeepsLast(s: State, due: bool, c: CompactResult)
    requires s.history != []
    requires c.Compacted? ==> SameLast(c.messages, s.history)
    ensures SameLast(Gate(s, due, c).history, s.history)
  {
  }

  lemma CompactKeepsLast(h: seq<Message>, window: int, sums: Summaries)
    requires h != []
    ensures var c := Compact(h, window, sums); c.Compacted? ==> SameLast(c.messages, h)
  {
    var split := SplitIndex(h, Compaction.EffectiveWindow(window));
    SplitIsLegal(h, Compaction.EffectiveWindow(window));
    var c := Compact(h, window, sums);
    assert c.Compacted? ==> c == Summarized(h, split, Summarize(sums));
    SummarizedKeepsLast(h, split, Summarize(sums));
  }

  lemma SummarizedKeepsLast(h: seq<Message>, split: nat, summary: Option<string>)
    requires split < |h|
    ensures var c := Summarized(h, split, summary); c.Compacted? ==> SameLast(c.messages, h)
  {
  }

  // ----- Requests -----

  /** What one request can change. */
  lemma SendKeeps(cfg: Config, s: State, kind: CallKind, messages: seq<Message>, out: StreamOutcome)
    ensures var (t, r) := Send(cfg, s, kind, messages, out);
      && t == s.(contextTokens := t.contextTokens, frameEmitted := t.frameEmitted, calls := t.calls)
      && t.calls == s.calls + [Call(kind, messages, s.cacheLatched)]
      && CleanReply(r.blocks)
  {
    ReplyIsAnswer(out.events, s.contextTokens, !kind.WrapUpCall?, cfg.parse);
  }

  /** A reply can stand in the history: it answers no tools and bears no marks. */
  predicate CleanReply(bs: seq<Block>) {
    ResultIds(bs) == [] && BlockMarks(bs) == 0
  }

  /** Mid-turn: everything of the loop head except that one request may be out for this turn. */
  predicate MidTurn(s: State, sent: nat) {
    GoodHistory(s.history) && GoodCalls(s.calls) && WindowFloor(s) && s.turns > 0
    && |s.calls| == s.turns - 1 + sent + Bit(s.effortLatched) + Bit(s.cacheLatched) + s.overflows
    && s.overflows <= MAX_CONTEXT_OVERFLOW_RETRIES
  }

  /** The parts of the state that requests leave alone. */
  predicate SameProgress(s: State, t: State) {
    t.turns == s.turns && t.truncStreak == s.truncStreak && t.lastSignature == s.lastSignature
    && t.dupStreak == s.dupStreak && t.errStreak == s.errStreak && t.toolTurns == s.toolTurns
    && t.cooldown == s.cooldown && t.failures == s.failures && t.gates == s.gates
  }

  lemma GoodCallsAppend(cs: seq<Call>, c: Call)
    requires GoodCalls(cs) && GoodCall(c)
    ensures GoodCalls(cs + [c])
  {
  }

  lemma FirstCallKeeps(cfg: Config, s: State, out: StreamOutcome)
    requires MidTurn(s, 0)
    ensures var (t, r) := Send(cfg, s, TurnCall, Breakpointed(s), out);
      MidTurn(t, 1) && SameProgress(s, t) && CleanReply(r.blocks)
  {
    SendKeeps(cfg, s, TurnCall, Breakpointed(s), out);
    GoodRequest(s);
    GoodCallsAppend(s.calls, Call(TurnCall, Breakpointed(s), s.cacheLatched));
  }

  lemma EffortKeeps(cfg: Config, s: State, r: Reply, out: StreamOutcome)
    requires MidTurn(s, 1) && CleanReply(r.blocks)
    ensures var (t, r') := AfterEffort(cfg, s, r, out);
      MidTurn(t, 1) && SameProgress(s, t) && CleanReply(r'.blocks)
  {
    SendKeeps(cfg, s.(effortLatched := true), EffortRerun, s.history, out);
    GoodCallsAppend(s.calls, Call(EffortRerun, s.history, s.cacheLatched));
  }

  lemma CacheKeeps(cfg: Config, s: State, r: Reply, out: StreamOutcome)
    requires MidTurn(s, 1) && CleanReply(r.blocks)
    ensures var (t, r') := AfterCache(cfg, s, r, out);
      MidTurn(t, 1) && SameProgress(s, t) && CleanReply(r'.blocks)
  {
    SendKeeps(cfg, s.(cacheLatched := true), CacheRerun, s.history, out);
    GoodCallsAppend(s.calls, Call(CacheRerun, s.history, true));
  }

  /** Recovering from an overflow: the window never grows, stays above its floor, and above the floor strictly
      shrinks. */
  lemma OverflowShrinksWindow(cfg: Config, s: State, err: Failure, sums: Summaries)
    requires WindowFloor(s)
    ensures var (t, recovered) := NoteOverflow(cfg, s, err, sums);
      && WindowFloor(t) && Window(cfg, t) <= Window(cfg, s)
      && (recovered && Window(cfg, s) > MIN_CONTEXT_OVERFLOW_WINDOW ==> Window(cfg, t) < Window(cfg, s))
      && (recovered ==> t.overflows == s.overflows + 1 <= MAX_CONTEXT_OVERFLOW_RETRIES)
      && (!recovered ==> t == s.(overflowWindow := t.overflowWindow))
  {
  }

  lemma OverflowKeeps(cfg: Config, s: State, r: Reply, sums: Summaries, out: StreamOutcome)
    requires MidTurn(s, 1) && CleanReply(r.blocks)
    ensures var (t, r') := AfterOverflow(cfg, s, r, sums, out);
      MidTurn(t, 1) && SameProgress(s, t) && CleanReply(r'.blocks)
  {
    if r.err.Some? {
      var (t, recovered) := NoteOverflow(cfg, s, r.err.value, sums);
      OverflowShrinksWindow(cfg, s, r.err.value, sums);
      if recovered {
        var low := s.(overflowWindow := LoweredWindow(Measured(s), Window(cfg, s)));
        GoodCompact(s.history, Window(cfg, low), sums);
        SendKeeps(cfg, t, OverflowRerun, t.history, out);
        GoodCallsAppend(t.calls, Call(OverflowRerun, t.history, t.cacheLatched));
      }
    }
  }

  lemma ConverseKeeps(cfg: Config, s: State, i: TurnInput)
    requires MidTurn(s, 0)
    ensures var (t, r) := Converse(cfg, s, i);
      MidTurn(t, 1) && SameProgress(s, t) && CleanReply(r.blocks)
  {
    var (s1, r1) := Send(cfg, s, TurnCall, Breakpointed(s), i.first);
    FirstCallKeeps(cfg, s, i.first);
    var (s2, r2) := AfterEffort(cfg, s1, r1, i.afterEffort);
    EffortKeeps(cfg, s1, r1, i.afterEffort);
    var (s3, r3) := AfterCache(cfg, s2, r2, i.afterCache);
    CacheKeeps(cfg, s2, r2, i.afterCache);
    OverflowKeeps(cfg, s3, r3, i.recovery, i.afterOverflow);
  }

  // ----- Trace arithmetic -----

  lemma TruncatedAppend(ts: seq<ToolTurn>, t: ToolTurn)
    ensures TrailingTruncated(ts + [t]) == if t.truncated then 1 + TrailingTruncated(ts) else 0
    ensures Executed(ts + [t]) == Executed(ts) + if t.truncated then [] else [t.signature]
    ensures AllErrors(ts + [t]) == AllErrors(ts) + t.errors
  {
    assert (ts + [t])[..|ts|] == ts;
  }

  lemma SameAppend(sigs: seq<string>, x: string)
    ensures TrailingSame(sigs + [x]) == if sigs != [] && sigs[|sigs| - 1] == x then 1 + TrailingSame(sigs) else 1
  {
    assert (sigs + [x])[..|sigs|] == sigs;
  }

  lemma TrueAppend(bs: seq<bool>, b: bool)
    ensures TrailingTrue(bs + [b]) == if b then 1 + TrailingTrue(bs) else 0
  {
    assert (bs + [b])[..|bs|] == bs;
  }

  /** Counting errors result by result is measuring the trailing run of errors. */
  lemma {:induction false} ErrorStreakIsTrailingRun(before: seq<bool>, results: seq<Block>)
    ensures ErrorStreak(TrailingTrue(before), results) == TrailingTrue(before + ErrorFlags(results))
    decreases |results|
  {
    if results == [] {
      assert before + ErrorFlags(results) == before;
    } else {
      var b := results[0].isError;
      TrueAppend(before, b);
      ErrorStreakIsTrailingRun(before + [b], results[1..]);
      assert before + ErrorFlags(results) == before + [b] + ErrorFlags(results[1..]);
    }
  }

  // ----- Answers -----

  function Ids(uses: seq<Block>): seq<string> {
    seq(|uses|, i requires 0 <= i < |uses| => uses[i].id)
  }

  lemma {:induction false} IdsOfUses(bs: seq<Block>)
    ensures UseIds(bs) == Ids(ToolUses(bs))
  {
    if bs != [] {
      IdsOfUses(bs[1..]);
      var rest := ToolUses(bs[1..]);
      if bs[0].typ == ToolUse {
        assert Ids([bs[0]] + rest) == [bs[0].id] + Ids(rest);
      } else {
        assert ToolUses(bs) == rest;
      }
    }
  }

  /** One plain result block per call, in call order. */
  predicate AnswersAll(results: seq<Block>, uses: seq<Block>) {
    |results| == |uses|
    && forall i :: 0 <= i < |results| ==> results[i].typ == ToolResult && results[i].useId == uses[i].id && !results[i].cached
  }

  lemma {:induction false} AnswersAllIds(results: seq<Block>, uses: seq<Block>)
    requires AnswersAll(results, uses)
    ensures UseIds(results) == [] && ResultIds(results) == Ids(uses) && BlockMarks(results) == 0
  {
    if results != [] {
      AnswersAllIds(results[1..], uses[1..]);
      assert Ids(uses) == [uses[0].id] + Ids(uses[1..]);
    }
  }

  lemma SignatureNotEmpty(uses: seq<Block>)
    requires uses != []
    ensures Signature(uses) != ""
  {
    assert |Signature(uses)| >= 1;
  }

  // ----- After the reply -----

  function AskMessage(r: Reply): Message {
    StubMessage(Message(ASSISTANT, Blocks(r.blocks)))
  }

  lemma RememberedHistory(s: State, r: Reply)
    requires GoodHistory(s.history) && CleanReply(r.blocks)
    ensures Remember(s, r).history == StubHistory(s.history) + [AskMessage(r)]
    ensures GoodHistory(StubHistory(s.history))
    ensures Uses(AskMessage(r)) == Ids(ToolUses(r.blocks)) && Results(AskMessage(r)) == [] && MessageMarks(AskMessage(r)) == 0
    ensures IsAssistant(AskMessage(r))
  {
    StubHistoryKeeps(s.history);
    StubKeepsIds(r.blocks);
    IdsOfUses(r.blocks);
    KnownRoles();
    assert StubHistory(s.history + [Message(ASSISTANT, Blocks(r.blocks))]) == StubHistory(s.history) + [AskMessage(r)];
  }

  lemma GoodPlainReply(s: State, r: Reply)
    requires GoodHistory(s.history) && CleanReply(r.blocks) && ToolUses(r.blocks) == []
    ensures GoodHistory(Remember(s, r).history)
  {
    RememberedHistory(s, r);
    PairedAppendPlain(StubHistory(s.history), [AskMessage(r)]);
  }

  /** A request for tools with an answer to all of them leaves a good history behind. */
  lemma GoodExchange(s: State, r: Reply, results: seq<Block>)
    requires GoodHistory(s.history) && CleanReply(r.blocks) && AnswersAll(results, ToolUses(r.blocks))
    ensures GoodHistory(Remember(s, r).history + [Message(USER, Blocks(results))])
  {
    var answer := Message(USER, Blocks(results));
    RememberedHistory(s, r);
    AnswersAllIds(results, ToolUses(r.blocks));
    KnownRoles();
    PairedAppendExchange(StubHistory(s.history), AskMessage(r), answer);
    assert Remember(s, r).history + [answer] == StubHistory(s.history) + [AskMessage(r), answer];
  }

  /** State between the reply and the next loop head. */
  predicate Replied(cfg: Config, s: State) {
    GoodCalls(s.calls) && CallsCounted(s) && WindowFloor(s) && GateKept(s)
  }

  lemma CloseTurnKeeps(cfg: Config, s: State, r: Reply, i: TurnInput)
    requires GoodHistory(s.history) && CleanReply(r.blocks) && ToolUses(r.blocks) == [] && HostInput(i)
    requires Replied(cfg, s) && CountersMeanTraces(cfg, s)
    ensures CloseTurn(Remember(s, r), i).1.Continue? ==> AtHead(cfg, CloseTurn(Remember(s, r), i).0)
  {
    GoodPlainReply(s, r);
    var t := Remember(s, r);
    if i.followUps != [] {
      GoodAppend(t.history, i.followUps);
      assert CloseTurn(t, i).0 == t.(history := t.history + i.followUps);
    }
  }

  lemma TruncatedCounters(cfg: Config, s: State, sig: string)
    requires CountersMeanTraces(cfg, s)
    ensures var ts := s.toolTurns + [ToolTurn(sig, true, [])];
      && s.truncStreak + 1 == TrailingTruncated(ts)
      && Executed(ts) == Executed(s.toolTurns) && AllErrors(ts) == AllErrors(s.toolTurns)
  {
    TruncatedAppend(s.toolTurns, ToolTurn(sig, true, []));
  }

  lemma RefillKeeps(cfg: Config, s: State, r: Reply)
    requires GoodHistory(s.history) && CleanReply(r.blocks)
    requires Replied(cfg, s) && CountersMeanTraces(cfg, s)
    ensures var (t, v) := RefillTruncated(Remember(s, r), ToolUses(r.blocks));
      v.Continue? ==> AtHead(cfg, t)
  {
    var uses := ToolUses(r.blocks);
    TruncatedAnswersAll(uses);
    GoodExchange(s, r, TruncatedBlocks(uses));
    RefillCounts(cfg, Remember(s, r), uses);
  }

  lemma TruncatedAnswersAll(uses: seq<Block>)
    ensures AnswersAll(TruncatedBlocks(uses), uses)
  {
  }

  lemma RefillCounts(cfg: Config, t: State, uses: seq<Block>)
    requires CountersMeanTraces(cfg, t)
    ensures var (u, v) := RefillTruncated(t, uses); v.Continue? ==> CountersMeanTraces(cfg, u)
  {
    TruncatedCounters(cfg, t, Signature(uses));
  }

  lemma ExecutedCounters(cfg: Config, s: State, sig: string, results: seq<Block>)
    requires CountersMeanTraces(cfg, s) && sig != ""
    ensures var n := NoteSignature(s, sig);
      var ts := s.toolTurns + [ToolTurn(sig, false, ErrorFlags(results))];
      && TrailingTruncated(ts) == 0
      && n.dupStreak == TrailingSame(Executed(ts))
      && Executed(ts) == Executed(s.toolTurns) + [sig]
      && ErrorStreak(s.errStreak, results) == TrailingTrue(AllErrors(ts))
  {
    var sigs := Executed(s.toolTurns);
    TruncatedAppend(s.toolTurns, ToolTurn(sig, false, ErrorFlags(results)));
    SameAppend(sigs, sig);
    ErrorStreakIsTrailingRun(AllErrors(s.toolTurns), results);
  }

  lemma SequentialAnswersAll(uses: seq<Block>, outs: nat -> ToolOutcome, ran: nat)
    ensures AnswersAll(SequentialBlocks(uses, outs, ran), uses)
  {
    var results := SequentialBlocks(uses, outs, ran);
    forall i | 0 <= i < |results|
      ensures results[i].typ == ToolResult && results[i].useId == uses[i].id && !results[i].cached
    {
      assert results[i] == if i < ran then ResultBlock(uses[i], outs(i)) else CancelledBlock(uses[i]);
    }
  }

  lemma ExecuteCounters(cfg: Config, s: State, t: State, sig: string, results: seq<Block>)
    requires CountersMeanTraces(cfg, s) && sig != "" && NoteSignature(s, sig).dupStreak < MaxIdentical(cfg)
    requires t.toolTurns == s.toolTurns + [ToolTurn(sig, false, ErrorFlags(results))]
    requires t.truncStreak == 0 && t.lastSignature == sig && t.dupStreak == NoteSignature(s, sig).dupStreak
    requires t.errStreak == ErrorStreak(s.errStreak, results) < MAX_CONSECUTIVE_TOOL_ERRORS
    ensures CountersMeanTraces(cfg, t)
  {
    ExecutedCounters(cfg, s, sig, results);
  }

  lemma ExecuteKeeps(cfg: Config, s: State, r: Reply, i: TurnInput)
    requires GoodHistory(s.history) && CleanReply(r.blocks) && ToolUses(r.blocks) != []
    requires Replied(cfg, s) && CountersMeanTraces(cfg, s)
    ensures var uses := ToolUses(r.blocks);
      var n := NoteSignature(Remember(s, r), Signature(uses));
      var (t, v) := Execute(cfg, n, uses, i);
      n.dupStreak < MaxIdentical(cfg) && v.Continue? ==> AtHead(cfg, t)
  {
    var uses := ToolUses(r.blocks);
    var n := NoteSignature(Remember(s, r), Signature(uses));
    var (t, v) := Execute(cfg, n, uses, i);
    if n.dupStreak < MaxIdentical(cfg) && v.Continue? {
      var results := SequentialBlocks(uses, i.outs, if i.ran < |uses| then i.ran else |uses|);
      SequentialAnswersAll(uses, i.outs, if i.ran < |uses| then i.ran else |uses|);
      GoodExchange(s, r, results);
      SignatureNotEmpty(uses);
      ExecuteCounters(cfg, s, t, Signature(uses), results);
    }
  }

  lemma SettleKeeps(cfg: Config, s: State, r: Reply, i: TurnInput)
    requires GoodHistory(s.history) && CleanReply(r.blocks) && HostInput(i)
    requires Replied(cfg, s) && CountersMeanTraces(cfg, s)
    ensures var (t, v) := Settle(cfg, s, r, i); v.Continue? ==> AtHead(cfg, t)
  {
    var uses := ToolUses(r.blocks);
    if uses == [] {
      CloseTurnKeeps(cfg, s, r, i);
    } else if r.stop == STOP_REASON_MAX_TOKENS {
      RefillKeeps(cfg, s, r);
    } else {
      ExecuteKeeps(cfg, s, r, i);
    }
  }
}
