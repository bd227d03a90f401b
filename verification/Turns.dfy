/** What one turn does, in terms of what its last stream brought (app/agentcore/loop.go, run). */
module Turns {
  import opened Text
  import opened Messages
  import opened Wrappers
  import opened Compaction
  import opened Cache
  import opened Media
  import opened Streaming
  import opened ToolBatch
  import opened Agent
  import opened AgentProperties
  import opened AgentRuns
  import opened Conversation
  import opened Overflow

  // ----- The reply -----

  /** The stream whose reply the turn goes on with. */
  function FinalStream(cfg: Config, s: State, i: TurnInput): StreamOutcome {
    if Recoverable(cfg, Overflow.Answered(cfg, s, i).0, LastStream(cfg, s, i), i.recovery) then i.afterOverflow
    else LastStream(cfg, s, i)
  }

  /** The blocks put together from a stream. */
  function Built(events: seq<Event>, parse: string -> string): seq<Block> {
    Cleaned(AbsorbAll(Draft([], map[], "", 0, false), events, true, parse).blocks)
  }

  lemma {:induction false} BlocksIgnoreSize(d: Draft, e: Draft, events: seq<Event>, writer: bool, parse: string -> string)
    requires d.blocks == e.blocks && d.partial == e.partial
    ensures AbsorbAll(d, events, writer, parse).blocks == AbsorbAll(e, events, writer, parse).blocks
    decreases |events|
  {
    if events != [] {
      OneEventIgnoresSize(d, e, events[0], writer, parse);
      BlocksIgnoreSize(Absorb(d, events[0], writer, parse), Absorb(e, events[0], writer, parse), events[1..], writer, parse);
    }
  }

  lemma OneEventIgnoresSize(d: Draft, e: Draft, ev: Event, writer: bool, parse: string -> string)
    requires d.blocks == e.blocks && d.partial == e.partial
    ensures var d', e' := Absorb(d, ev, writer, parse), Absorb(e, ev, writer, parse);
      d'.blocks == e'.blocks && d'.partial == e'.partial
  {
  }

  /** A reply is its stream's: failed with it, or made of its blocks and ended for its last reason. */
  predicate ReplyOf(r: Reply, out: StreamOutcome, parse: string -> string) {
    r.err == out.err && (out.err.Some? ==> r.blocks == [])
    && (out.err.None? ==> r.blocks == Built(out.events, parse) && IsLastReason(out.events, r.stop))
  }

  lemma SendReplies(cfg: Config, s: State, kind: CallKind, messages: seq<Message>, out: StreamOutcome)
    requires !kind.WrapUpCall?
    ensures ReplyOf(Send(cfg, s, kind, messages, out).1, out, cfg.parse)
  {
    StopReasonArrives(out.events, s.contextTokens, true, cfg.parse);
    BlocksIgnoreSize(Draft([], map[], "", s.contextTokens, false), Draft([], map[], "", 0, false), out.events, true, cfg.parse);
  }

  lemma AnsweredReplies(cfg: Config, s: State, i: TurnInput)
    ensures ReplyOf(Overflow.Answered(cfg, s, i).1, LastStream(cfg, s, i), cfg.parse)
  {
    var (s1, r1) := Send(cfg, s, TurnCall, Breakpointed(s), i.first);
    FirstStep(cfg, s, i);
    SendReplies(cfg, s, TurnCall, Breakpointed(s), i.first);
    var (s2, r2) := AfterEffort(cfg, s1, r1, i.afterEffort);
    EffortStep(cfg, s1, r1, i);
    SendReplies(cfg, s1.(effortLatched := true), EffortRerun, s1.history, i.afterEffort);
    SendReplies(cfg, s2.(cacheLatched := true), CacheRerun, s2.history, i.afterCache);
  }

  lemma OverflowReplies(cfg: Config, t: State, r: Reply, out: StreamOutcome, i: TurnInput)
    requires Reflects(t, r, out) && ReplyOf(r, out, cfg.parse)
    ensures ReplyOf(AfterOverflow(cfg, t, r, i.recovery, i.afterOverflow).1,
                    if Recoverable(cfg, t, out, i.recovery) then i.afterOverflow else out, cfg.parse)
  {
    if r.err.Some? {
      var (u, recovered) := NoteOverflow(cfg, t, r.err.value, i.recovery);
      RecoveredIff(cfg, t, r.err.value, i.recovery, out);
      SendReplies(cfg, u, OverflowRerun, u.history, i.afterOverflow);
    }
  }

  /** The conversation with the upstream ends with the reply of the last stream it got to. */
  lemma ConverseReplies(cfg: Config, s: State, i: TurnInput)
    ensures ReplyOf(Converse(cfg, s, i).1, FinalStream(cfg, s, i), cfg.parse)
  {
    var (t, r) := Overflow.Answered(cfg, s, i);
    AnsweredStep(cfg, s, i);
    AnsweredReplies(cfg, s, i);
    OverflowReplies(cfg, t, r, LastStream(cfg, s, i), i);
    ConverseIsAnswered(cfg, s, i);
  }

  // ----- The size the upstream reports -----

  /** A state that knows the size a stream opened with, or a larger one it reported later. */
  predicate KnowsSize(t: State, out: StreamOutcome) {
    forall k :: 0 <= k < |out.events| && out.events[k].Start? && Reports(out.events[k]) && NoReportingStart(out.events, k + 1) ==>
      IsPeak(out.events, k + 1, Reported(out.events[k]), t.contextTokens)
  }

  lemma SendKnowsSize(cfg: Config, s: State, kind: CallKind, messages: seq<Message>, out: StreamOutcome)
    requires !kind.WrapUpCall?
    ensures var t := Send(cfg, s, kind, messages, out).0;
      KnowsSize(t, out) && (NoReportingStart(out.events, 0) ==> IsPeak(out.events, 0, s.contextTokens, t.contextTokens))
  {
    ReportedSizeArrives(Draft([], map[], "", s.contextTokens, false), out.events, true, cfg.parse);
  }

  lemma AnsweredKnowsSize(cfg: Config, s: State, i: TurnInput)
    ensures KnowsSize(Overflow.Answered(cfg, s, i).0, LastStream(cfg, s, i))
  {
    var (s1, r1) := Send(cfg, s, TurnCall, Breakpointed(s), i.first);
    FirstStep(cfg, s, i);
    SendKnowsSize(cfg, s, TurnCall, Breakpointed(s), i.first);
    var (s2, r2) := AfterEffort(cfg, s1, r1, i.afterEffort);
    EffortStep(cfg, s1, r1, i);
    SendKnowsSize(cfg, s1.(effortLatched := true), EffortRerun, s1.history, i.afterEffort);
    SendKnowsSize(cfg, s2.(cacheLatched := true), CacheRerun, s2.history, i.afterCache);
  }

  lemma OverflowKnowsSize(cfg: Config, t: State, r: Reply, out: StreamOutcome, i: TurnInput)
    requires Reflects(t, r, out) && KnowsSize(t, out)
    ensures KnowsSize(AfterOverflow(cfg, t, r, i.recovery, i.afterOverflow).0,
                      if Recoverable(cfg, t, out, i.recovery) then i.afterOverflow else out)
  {
    if r.err.Some? {
      var (u, recovered) := NoteOverflow(cfg, t, r.err.value, i.recovery);
      RecoveredIff(cfg, t, r.err.value, i.recovery, out);
      UnrecoveredKeepsSize(cfg, t, r.err.value, i.recovery);
      SendKnowsSize(cfg, u, OverflowRerun, u.history, i.afterOverflow);
    }
  }

  lemma UnrecoveredKeepsSize(cfg: Config, s: State, err: Failure, sums: Summaries)
    ensures var (t, recovered) := NoteOverflow(cfg, s, err, sums); !recovered ==> t.contextTokens == s.contextTokens
  {
  }

  /** After a conversation with the upstream the known size is what its last stream opened with, or a larger one reported
      later in it. */
  lemma ReportedSizeIsKnown(cfg: Config, s: State, i: TurnInput)
    ensures KnowsSize(Converse(cfg, s, i).0, FinalStream(cfg, s, i))
  {
    var (t, r) := Overflow.Answered(cfg, s, i);
    AnsweredStep(cfg, s, i);
    AnsweredKnowsSize(cfg, s, i);
    OverflowKnowsSize(cfg, t, r, LastStream(cfg, s, i), i);
    ConverseIsAnswered(cfg, s, i);
  }

  // ----- Before the request -----

  /** The verdict the gate adds. */
  function GateSays(cfg: Config, s: State, sums: Summaries): GateVerdict {
    var t := AutoCompact(cfg, s, sums);
    if |t.gates| > |s.gates| then t.gates[|s.gates|] else Disabled
  }

  /** A compaction is attempted exactly when failures have not disabled it, none is being waited out, and the history's
      estimate or the size last reported by the upstream has reached three quarters of the window. When it succeeds the
      compacted history is the history, and its estimate the known size. */
  lemma CompactionAttemptedIff(cfg: Config, s: State, sums: Summaries)
    ensures var t := AutoCompact(cfg, s, sums);
      var w := Window(cfg, s);
      var c := Compact(s.history, w, sums);
      var attempted := s.failures < 3 && s.cooldown == 0 && (Tokens(s.history) >= w * 3 / 4 || s.contextTokens >= w * 3 / 4);
      var verdict := GateSays(cfg, s, sums);
      && (attempted <==> verdict == NothingYet || verdict == AttemptFailed || verdict == AttemptSucceeded)
      && (attempted && c.Compacted? ==> t.history == c.messages && t.contextTokens == Tokens(t.history)
                                        && t.autoCompacts == s.autoCompacts + 1)
      && (!(attempted && c.Compacted?) ==> t.history == s.history && t.contextTokens == s.contextTokens
                                           && t.autoCompacts == s.autoCompacts)
  {
    GateSaysOf(s, CompactionDue(cfg, s), Compact(s.history, Window(cfg, s), sums));
  }

  lemma GateSaysOf(s: State, due: bool, c: CompactResult)
    ensures var t := Gate(s, due, c);
      var attempted := s.failures < 3 && s.cooldown == 0 && due;
      && |t.gates| == |s.gates| + 1
      && (attempted <==> t.gates[|s.gates|] in {NothingYet, AttemptFailed, AttemptSucceeded})
      && (attempted && c.Compacted? ==> t.history == c.messages && t.contextTokens == Tokens(t.history)
                                        && t.autoCompacts == s.autoCompacts + 1)
      && (!(attempted && c.Compacted?) ==> t.history == s.history && t.contextTokens == s.contextTokens
                                           && t.autoCompacts == s.autoCompacts)
  {
  }

  /** After an overflow the window is lowered to half the measured size, or to half of what it was if that is less, but
      never below 32000, whether or not the history can then be compacted. */
  lemma OverflowHalvesWindow(cfg: Config, s: State, err: Failure, sums: Summaries)
    requires s.overflows < 3 && err.overflow && !s.frameEmitted && Measured(s) > 0
    ensures var (t, recovered) := NoteOverflow(cfg, s, err, sums);
      var m, prev := Measured(s), Window(cfg, s);
      && t.overflowWindow == Higher(32_000, if m / 2 < prev then m / 2 else prev / 2)
      && (recovered ==> t.contextTokens == Tokens(t.history))
  {
  }

  // ----- After the reply -----

  /** The state in which a turn asks the upstream, and the one in which its reply is there. */
  function Asking(cfg: Config, s: State, i: TurnInput): State {
    AutoCompact(cfg, Begin(s, i), i.gate)
  }

  function Told(cfg: Config, s: State, i: TurnInput): State {
    Converse(cfg, Asking(cfg, s, i), i).0
  }

  predicate Succeeds(cfg: Config, s: State, i: TurnInput) {
    !i.cancelled && FinalStream(cfg, Asking(cfg, s, i), i).err.None?
  }

  /** The blocks of the turn's reply. */
  function ReplyBlocks(cfg: Config, s: State, i: TurnInput): seq<Block> {
    Built(FinalStream(cfg, Asking(cfg, s, i), i).events, cfg.parse)
  }

  /** The history once the reply is in it: images already seen are replaced, and the reply's message comes last. */
  function WithReply(cfg: Config, s: State, i: TurnInput): seq<Message> {
    StubHistory(Told(cfg, s, i).history) + [StubMessage(Message(ASSISTANT, Blocks(ReplyBlocks(cfg, s, i))))]
  }

  lemma TurnIsSettled(cfg: Config, s: State, i: TurnInput) returns (r: Reply)
    requires Succeeds(cfg, s, i)
    ensures r.blocks == ReplyBlocks(cfg, s, i) && IsLastReason(FinalStream(cfg, Asking(cfg, s, i), i).events, r.stop)
    ensures Turn(cfg, s, i) == Settle(cfg, Told(cfg, s, i), r, i)
    ensures Remember(Told(cfg, s, i), r) == Told(cfg, s, i).(stopLast := r.stop, history := WithReply(cfg, s, i))
  {
    ConverseReplies(cfg, Asking(cfg, s, i), i);
    r := Converse(cfg, Asking(cfg, s, i), i).1;
    StubbedAppend(Told(cfg, s, i).history, Message(ASSISTANT, Blocks(r.blocks)));
  }

  lemma StubbedAppend(h: seq<Message>, m: Message)
    ensures StubHistory(h + [m]) == StubHistory(h) + [StubMessage(m)]
  {
  }

  // ----- A turn without tools -----

  /** A reply that asks for no tools ends the run with the reply as the last message, unless messages came in too late
      for the turn: those follow the reply and the run goes on. */
  lemma PlainTurn(cfg: Config, s: State, i: TurnInput)
    requires Succeeds(cfg, s, i) && ToolUses(ReplyBlocks(cfg, s, i)) == []
    ensures var (t, v) := Turn(cfg, s, i);
      && t.history == WithReply(cfg, s, i) + i.followUps
      && v == (if i.followUps == [] then Done(Success) else Continue)
      && t.calls == Told(cfg, s, i).calls && t.toolCalls == s.toolCalls && t.toolTurns == s.toolTurns
  {
    var r := TurnIsSettled(cfg, s, i);
    ToldKeeps(cfg, s, i);
    assert i.followUps == [] ==> WithReply(cfg, s, i) + i.followUps == WithReply(cfg, s, i);
  }

  lemma ToldKeeps(cfg: Config, s: State, i: TurnInput)
    ensures var t := Told(cfg, s, i);
      && t.toolCalls == s.toolCalls && t.toolTurns == s.toolTurns && t.truncStreak == s.truncStreak
      && t.lastSignature == s.lastSignature && t.dupStreak == s.dupStreak && t.errStreak == s.errStreak
  {
    var b := Begin(s, i);
    var g := AutoCompact(cfg, b, i.gate);
    GateKeepsTools(b, CompactionDue(cfg, b), Compact(b.history, Window(cfg, b), i.gate));
    var (s1, r1) := Send(cfg, g, TurnCall, Breakpointed(g), i.first);
    var (s2, r2) := AfterEffort(cfg, s1, r1, i.afterEffort);
    var (s3, r3) := AfterCache(cfg, s2, r2, i.afterCache);
    assert SameTools(g, s1) && SameTools(s1, s2) && SameTools(s2, s3);
    OverflowKeepsTools(cfg, s3, r3, i);
  }

  predicate SameTools(s: State, t: State) {
    t.toolCalls == s.toolCalls && t.toolTurns == s.toolTurns && t.truncStreak == s.truncStreak
    && t.lastSignature == s.lastSignature && t.dupStreak == s.dupStreak && t.errStreak == s.errStreak
  }

  lemma GateKeepsTools(s: State, due: bool, c: CompactResult)
    ensures SameTools(s, Gate(s, due, c))
  {
  }

  lemma OverflowKeepsTools(cfg: Config, s: State, r: Reply, i: TurnInput)
    ensures SameTools(s, AfterOverflow(cfg, s, r, i.recovery, i.afterOverflow).0)
  {
    if r.err.Some? {
      RecoveryKeepsTools(cfg, s, r.err.value, i.recovery);
    }
  }

  lemma RecoveryKeepsTools(cfg: Config, s: State, err: Failure, sums: Summaries)
    ensures SameTools(s, NoteOverflow(cfg, s, err, sums).0)
  {
  }

  // ----- A truncated request for tools -----

  /** A request for tools cut off by the output limit is answered with one failure per call, in call order; nothing is
      executed, the turn is noted as truncated, and the third in a row ends the run. */
  lemma TruncatedTurn(cfg: Config, s: State, i: TurnInput)
    requires Succeeds(cfg, s, i) && ToolUses(ReplyBlocks(cfg, s, i)) != []
    requires IsLastReason(FinalStream(cfg, Asking(cfg, s, i), i).events, STOP_REASON_MAX_TOKENS)
    ensures var (t, v) := Turn(cfg, s, i);
      var uses := ToolUses(ReplyBlocks(cfg, s, i));
      && |t.history| == |WithReply(cfg, s, i)| + 1 && t.history[..|t.history| - 1] == WithReply(cfg, s, i)
      && AllFail(t.history[|t.history| - 1], uses)
      && FailuresBooked(t.toolCalls, s.toolCalls, uses)
      && t.toolTurns == s.toolTurns + [ToolTurn(Signature(uses), true, [])]
      && t.truncStreak == s.truncStreak + 1 && t.errStreak == s.errStreak && t.dupStreak == s.dupStreak
      && t.calls == Told(cfg, s, i).calls
      && v == (if s.truncStreak < MAX_TRUNCATION_RETRIES then Continue else Done(TooManyTruncations))
  {
    var r := TurnIsSettled(cfg, s, i);
    ToldKeeps(cfg, s, i);
    OneLastReason(FinalStream(cfg, Asking(cfg, s, i), i).events, r.stop, STOP_REASON_MAX_TOKENS);
    var uses := ToolUses(r.blocks);
    assert AllFail(Message(USER, Blocks(TruncatedBlocks(uses))), uses);
  }

  lemma OneLastReason(evs: seq<Event>, a: string, b: string)
    requires IsLastReason(evs, a) && IsLastReason(evs, b)
    ensures a == b
  {
    if !NoStop(evs, 0) {
      var j :| 0 <= j < |evs| && evs[j].Stop? && evs[j].reason == a && NoStop(evs, j + 1);
      var k :| 0 <= k < |evs| && evs[k].Stop? && evs[k].reason == b && NoStop(evs, k + 1);
    }
  }

  /** A user message of one failed result per call. */
  predicate AllFail(m: Message, uses: seq<Block>) {
    m.role == USER && m.content.Blocks? && |m.content.blocks| == |uses|
    && forall k :: 0 <= k < |uses| ==> Carries(m.content.blocks[k], uses[k], Str(TRUNCATED_RESULT), true)
  }

  predicate FailuresBooked(now: seq<Record>, before: seq<Record>, uses: seq<Block>) {
    |now| == |before| + |uses| && now[..|before|] == before
    && forall k :: 0 <= k < |uses| ==>
      var e := now[|before| + k];
      e.id == uses[k].id && e.name == uses[k].name && e.input == uses[k].input && e.outcome.isError
  }

  // ----- A turn that executes its tools -----

  /** The reply asks for tools and was not cut off. */
  predicate AsksTools(cfg: Config, s: State, i: TurnInput) {
    Succeeds(cfg, s, i) && ToolUses(ReplyBlocks(cfg, s, i)) != []
    && !IsLastReason(FinalStream(cfg, Asking(cfg, s, i), i).events, STOP_REASON_MAX_TOKENS)
  }

  /** How often in a row these very calls have now been asked for. */
  function Repetitions(s: State, uses: seq<Block>): nat {
    if Signature(uses) == s.lastSignature then s.dupStreak + 1 else 1
  }

  /** Asked for the same calls once too often, the run executes nothing and ends. */
  lemma RepeatedTurn(cfg: Config, s: State, i: TurnInput)
    requires AsksTools(cfg, s, i) && Repetitions(s, ToolUses(ReplyBlocks(cfg, s, i))) >= MaxIdentical(cfg)
    ensures var (t, v) := Turn(cfg, s, i);
      && v == Done(NoProgress(DuplicateCalls))
      && t.history == WithReply(cfg, s, i) && t.toolCalls == s.toolCalls && t.toolTurns == s.toolTurns
  {
    var r := TurnIsSettled(cfg, s, i);
    ToldKeeps(cfg, s, i);
    var n := NoteSignature(Remember(Told(cfg, s, i), r), Signature(ToolUses(r.blocks)));
    WrapUpChangesTraffic(cfg, n, DuplicateCalls, i);
  }

  lemma WrapUpChangesTraffic(cfg: Config, s: State, guard: Guard, i: TurnInput)
    ensures var t := WrapUp(cfg, s, guard, i);
      t.history == s.history && SameTools(s, t)
      && |t.calls| == |s.calls| + (if i.wrapUpCancelled then 0 else 1)
  {
    SendKeeps(cfg, s, WrapUpCall(guard), Breakpointed(s) + [WrapUpMessage(guard)], i.wrapUp);
  }

  /** How many of the calls ran. */
  function Ran(i: TurnInput, uses: seq<Block>): nat {
    if i.ran < |uses| then i.ran else |uses|
  }

  /** The flags by which the error guard counts: the tools' own, and an error for every call that did not run. */
  predicate FlagsOf(errors: seq<bool>, uses: seq<Block>, i: TurnInput) {
    |errors| == |uses|
    && forall k :: 0 <= k < |uses| ==> (errors[k] <==> k >= i.ran || i.outs(k).isError)
  }

  predicate AnswersTools(m: Message, uses: seq<Block>, i: TurnInput) {
    m.role == USER && m.content.Blocks? && Delivered(m.content.blocks, uses, i.outs, Ran(i, uses))
  }

  /** Otherwise every call is answered, in one message behind the reply, with what its tool brought; the calls that ran
      are booked; their own error flags count; and the run goes on unless errors reached their limit or the results
      could not be written. */
  lemma ExecutedTurn(cfg: Config, s: State, i: TurnInput)
    requires AsksTools(cfg, s, i) && Repetitions(s, ToolUses(ReplyBlocks(cfg, s, i))) < MaxIdentical(cfg)
    ensures var (t, v) := Turn(cfg, s, i);
      var uses := ToolUses(ReplyBlocks(cfg, s, i));
      && |t.history| == |WithReply(cfg, s, i)| + 1 && t.history[..|t.history| - 1] == WithReply(cfg, s, i)
      && AnswersTools(t.history[|t.history| - 1], uses, i)
      && s.toolCalls <= t.toolCalls && Booked(t.toolCalls[|s.toolCalls|..], uses, i.outs, Ran(i, uses))
      && |t.toolTurns| == |s.toolTurns| + 1 && s.toolTurns <= t.toolTurns
      && var last := t.toolTurns[|s.toolTurns|];
         && last.signature == Signature(uses) && !last.truncated && FlagsOf(last.errors, uses, i)
         && t.errStreak == ErrorRun(s.errStreak, last.errors)
         && v == (if t.errStreak >= MAX_CONSECUTIVE_TOOL_ERRORS then Done(NoProgress(RepeatedErrors))
                  else if i.resultsWriteFails then Done(WriteError) else Continue)
  {
    var r := TurnIsSettled(cfg, s, i);
    ToldKeeps(cfg, s, i);
    var uses := ToolUses(r.blocks);
    var n := NoteSignature(Remember(Told(cfg, s, i), r), Signature(uses));
    ExecuteDoes(cfg, n, uses, i);
  }

  /** What executing the tools has added, before the guard looks at it. */
  predicate ToolsDone(n: State, t: State, uses: seq<Block>, i: TurnInput) {
    && |t.history| == |n.history| + 1 && t.history[..|n.history|] == n.history
    && AnswersTools(t.history[|n.history|], uses, i)
    && n.toolCalls <= t.toolCalls && Booked(t.toolCalls[|n.toolCalls|..], uses, i.outs, Ran(i, uses))
    && |t.toolTurns| == |n.toolTurns| + 1 && n.toolTurns <= t.toolTurns
    && var last := t.toolTurns[|n.toolTurns|];
       && last.signature == Signature(uses) && !last.truncated && FlagsOf(last.errors, uses, i)
       && t.errStreak == ErrorRun(n.errStreak, last.errors)
  }

  function AfterTools(n: State, uses: seq<Block>, i: TurnInput): State {
    var ran := Ran(i, uses);
    var results := SequentialBlocks(uses, i.outs, ran);
    n.(history := n.history + [Message(USER, Blocks(results))],
       toolCalls := n.toolCalls + SequentialRecords(uses, i.outs, ran),
       errStreak := ErrorStreak(n.errStreak, results),
       toolTurns := n.toolTurns + [ToolTurn(Signature(uses), false, ErrorFlags(results))])
  }

  lemma AfterToolsDone(n: State, uses: seq<Block>, i: TurnInput)
    ensures ToolsDone(n, AfterTools(n, uses, i), uses, i)
  {
    var ran := Ran(i, uses);
    var results := SequentialBlocks(uses, i.outs, ran);
    SequentialDelivers(uses, i.outs, ran);
    DeliveredFlags(results, uses, i);
    StreakByFlags(n.errStreak, results);
    ListsGrow(n, AfterTools(n, uses, i), Message(USER, Blocks(results)), SequentialRecords(uses, i.outs, ran),
              ToolTurn(Signature(uses), false, ErrorFlags(results)));
  }

  lemma ListsGrow(n: State, t: State, m: Message, records: seq<Record>, turn: ToolTurn)
    requires t.history == n.history + [m] && t.toolCalls == n.toolCalls + records && t.toolTurns == n.toolTurns + [turn]
    ensures t.history[..|n.history|] == n.history && t.history[|n.history|] == m
    ensures n.toolCalls <= t.toolCalls && t.toolCalls[|n.toolCalls|..] == records
    ensures n.toolTurns <= t.toolTurns && t.toolTurns[|n.toolTurns|] == turn
  {
  }

  lemma ExecuteDoes(cfg: Config, n: State, uses: seq<Block>, i: TurnInput)
    ensures var (t, v) := Execute(cfg, n, uses, i);
      && ToolsDone(n, t, uses, i)
      && v == (if t.errStreak >= MAX_CONSECUTIVE_TOOL_ERRORS then Done(NoProgress(RepeatedErrors))
               else if i.resultsWriteFails then Done(WriteError) else Continue)
  {
    AfterToolsDone(n, uses, i);
    WrapUpChangesTraffic(cfg, AfterTools(n, uses, i), RepeatedErrors, i);
  }

  lemma DeliveredFlags(results: seq<Block>, uses: seq<Block>, i: TurnInput)
    requires Delivered(results, uses, i.outs, Ran(i, uses))
    ensures AnswersTools(Message(USER, Blocks(results)), uses, i) && FlagsOf(ErrorFlags(results), uses, i)
  {
  }

  /** Errors in a row at the end, after these. */
  function ErrorRun(before: nat, errors: seq<bool>): nat {
    if errors == [] then before else if errors[|errors| - 1] then 1 + ErrorRun(before, errors[..|errors| - 1]) else 0
  }

  lemma {:induction false} StreakByFlags(before: nat, results: seq<Block>)
    ensures ErrorStreak(before, results) == ErrorRun(before, ErrorFlags(results))
    decreases |results|
  {
    if results != [] {
      var k := |results| - 1;
      StreakByFlags(before, results[..k]);
      StreakAppend(before, results[..k], results[k]);
      assert results == results[..k] + [results[k]];
      assert ErrorFlags(results)[..k] == ErrorFlags(results[..k]);
    }
  }

  lemma {:induction false} StreakAppend(before: nat, results: seq<Block>, b: Block)
    ensures ErrorStreak(before, results + [b]) == if b.isError then ErrorStreak(before, results) + 1 else 0
    decreases |results|
  {
    if results == [] {
      assert results + [b] == [b] && [b][1..] == [];
    } else {
      assert (results + [b])[1..] == results[1..] + [b];
      StreakAppend(if results[0].isError then before + 1 else 0, results[1..], b);
    }
  }

  // ----- How a turn can end the run -----

  /** A turn whose conversation failed. */
  lemma FailedTurn(cfg: Config, s: State, i: TurnInput)
    requires !i.cancelled && !Succeeds(cfg, s, i)
    ensures var (t, v) := Turn(cfg, s, i);
      t == Told(cfg, s, i) && v == Done(if i.cancelledMidway then Cancelled else RunError)
  {
    ConverseReplies(cfg, Asking(cfg, s, i), i);
  }

  /** The ways a turn can go, and what decides between them. */
  datatype Course = CutShort | Fails | Plain | Truncates | Repeats | Executes

  function CourseOf(cfg: Config, s: State, i: TurnInput): Course {
    if i.cancelled then CutShort
    else if !Succeeds(cfg, s, i) then Fails
    else if ToolUses(ReplyBlocks(cfg, s, i)) == [] then Plain
    else if IsLastReason(FinalStream(cfg, Asking(cfg, s, i), i).events, STOP_REASON_MAX_TOKENS) then Truncates
    else if Repetitions(s, ToolUses(ReplyBlocks(cfg, s, i))) >= MaxIdentical(cfg) then Repeats
    else Executes
  }

  /** Each ending has its own cause; a run goes on exactly otherwise. */
  lemma EndingIff(cfg: Config, s: State, i: TurnInput)
    ensures var (t, v) := Turn(cfg, s, i);
      var course := CourseOf(cfg, s, i);
      && (v == Done(Cancelled) <==> course == CutShort || (course == Fails && i.cancelledMidway))
      && (v == Done(RunError) <==> course == Fails && !i.cancelledMidway)
      && (v == Done(Success) <==> course == Plain && i.followUps == [])
      && (v == Done(TooManyTruncations) <==> course == Truncates && s.truncStreak >= MAX_TRUNCATION_RETRIES)
      && (v == Done(NoProgress(DuplicateCalls)) <==> course == Repeats)
      && (v == Done(NoProgress(RepeatedErrors)) <==> course == Executes && t.errStreak >= MAX_CONSECUTIVE_TOOL_ERRORS)
      && (v == Done(WriteError) <==>
          course == Executes && t.errStreak < MAX_CONSECUTIVE_TOOL_ERRORS && i.resultsWriteFails)
  {
    match CourseOf(cfg, s, i)
    case CutShort =>
    case Fails => FailedTurn(cfg, s, i);
    case Plain => PlainTurn(cfg, s, i);
    case Truncates => TruncatedTurn(cfg, s, i);
    case Repeats => RepeatedTurn(cfg, s, i);
    case Executes => ExecutedTurn(cfg, s, i);
  }

  /** Truncations end the run exactly with the third in a row, errors exactly with the fifth in a row. */
  predicate TracesTell(t: State, v: Verdict) {
    && (v == Done(TooManyTruncations) <==> TrailingTruncated(t.toolTurns) >= 3)
    && (v == Done(NoProgress(RepeatedErrors)) <==> TrailingTrue(AllErrors(t.toolTurns)) >= 5)
  }

  lemma SameTracesTell(cfg: Config, s: State, t: State, v: Verdict)
    requires CountersMeanTraces(cfg, s) && t.toolTurns == s.toolTurns
    requires v != Done(TooManyTruncations) && v != Done(NoProgress(RepeatedErrors))
    ensures TracesTell(t, v)
  {
  }

  lemma TruncatedTracesTell(cfg: Config, s: State, i: TurnInput)
    requires CountersMeanTraces(cfg, s) && CourseOf(cfg, s, i) == Truncates
    ensures TracesTell(Turn(cfg, s, i).0, Turn(cfg, s, i).1)
  {
    TruncatedTurn(cfg, s, i);
    var (t, v) := Turn(cfg, s, i);
    OneMoreTruncated(s.toolTurns, t.toolTurns, Signature(ToolUses(ReplyBlocks(cfg, s, i))));
  }

  lemma OneMoreTruncated(before: seq<ToolTurn>, now: seq<ToolTurn>, sig: string)
    requires now == before + [ToolTurn(sig, true, [])]
    ensures TrailingTruncated(now) == TrailingTruncated(before) + 1 && AllErrors(now) == AllErrors(before)
  {
    TruncatedAppend(before, ToolTurn(sig, true, []));
  }

  lemma ExecutedTracesTell(cfg: Config, s: State, i: TurnInput)
    requires CountersMeanTraces(cfg, s) && CourseOf(cfg, s, i) == Executes
    ensures TracesTell(Turn(cfg, s, i).0, Turn(cfg, s, i).1)
  {
    ExecutedTurn(cfg, s, i);
    var (t, v) := Turn(cfg, s, i);
    OneMoreTrace(s.toolTurns, t.toolTurns, s.errStreak);
  }

  lemma OneMoreTrace(before: seq<ToolTurn>, now: seq<ToolTurn>, errors: nat)
    requires |now| == |before| + 1 && before <= now && !now[|before|].truncated && errors == TrailingTrue(AllErrors(before))
    ensures TrailingTruncated(now) == 0 && TrailingTrue(AllErrors(now)) == ErrorRun(errors, now[|before|].errors)
  {
    assert now == before + [now[|before|]];
    TruncatedAppend(before, now[|before|]);
    RunIsTrailing(AllErrors(before), now[|before|].errors);
  }

  /** At the heads of a run the guards' counters are what the trace says, so the guards fire by the trace: truncations
      end the run exactly with the third in a row, errors exactly with the fifth in a row, and repetitions exactly when
      the calls asked for are those of the last executed turns, as often as the limit says. */
  lemma GuardsFireIff(cfg: Config, s: State, i: TurnInput)
    requires AtHead(cfg, s) && HostInput(i)
    ensures TracesTell(Turn(cfg, s, i).0, Turn(cfg, s, i).1)
    ensures Turn(cfg, s, i).1 == Done(NoProgress(DuplicateCalls)) <==> RepeatsTooOften(cfg, s, i)
  {
    EndingIff(cfg, s, i);
    match CourseOf(cfg, s, i)
    case CutShort =>
      SameTracesTell(cfg, s, Turn(cfg, s, i).0, Turn(cfg, s, i).1);
    case Fails =>
      FailedTurn(cfg, s, i);
      ToldKeeps(cfg, s, i);
      SameTracesTell(cfg, s, Turn(cfg, s, i).0, Turn(cfg, s, i).1);
    case Plain =>
      PlainTurn(cfg, s, i);
      SameTracesTell(cfg, s, Turn(cfg, s, i).0, Turn(cfg, s, i).1);
    case Truncates =>
      TruncatedTracesTell(cfg, s, i);
    case Repeats =>
      RepeatedTurn(cfg, s, i);
      RepetitionsCount(cfg, s, ToolUses(ReplyBlocks(cfg, s, i)));
      SameTracesTell(cfg, s, Turn(cfg, s, i).0, Turn(cfg, s, i).1);
    case Executes =>
      ExecutedTracesTell(cfg, s, i);
      RepetitionsCount(cfg, s, ToolUses(ReplyBlocks(cfg, s, i)));
  }

  predicate RepeatsTooOften(cfg: Config, s: State, i: TurnInput) {
    AsksTools(cfg, s, i)
    && TrailingSame(Executed(s.toolTurns) + [Signature(ToolUses(ReplyBlocks(cfg, s, i)))]) >= MaxIdentical(cfg)
  }

  lemma RepetitionsCount(cfg: Config, s: State, uses: seq<Block>)
    requires CountersMeanTraces(cfg, s) && uses != []
    ensures Repetitions(s, uses) == TrailingSame(Executed(s.toolTurns) + [Signature(uses)])
  {
    SameAppend(Executed(s.toolTurns), Signature(uses));
    SignatureNotEmpty(uses);
  }

  lemma {:induction false} RunIsTrailing(before: seq<bool>, errors: seq<bool>)
    ensures ErrorRun(TrailingTrue(before), errors) == TrailingTrue(before + errors)
    decreases |errors|
  {
    if errors == [] {
      assert before + errors == before;
    } else {
      var k := |errors| - 1;
      RunIsTrailing(before, errors[..k]);
      assert before + errors == (before + errors[..k]) + [errors[k]];
      TrueAppend(before + errors[..k], errors[k]);
    }
  }

  // ----- What the requests show -----

  /** A turn's own request shows the history it was asked with, but for marks; a rerun shows it without any; and one
      after an overflow shows the compacted history. */
  predicate ShowsHistory(c: Call, asked: seq<Message>, now: seq<Message>) {
    match c.kind
    case TurnCall =>
      |c.messages| == |asked| && (forall k :: 0 <= k < |asked| ==> SameButMarks(c.messages[k], asked[k]))
      && (if c.latched then c.messages == asked
          else asked != [] && Markable(asked[|asked| - 1]) ==> EndsMarked(c.messages[|asked| - 1]))
    case EffortRerun => c.messages == asked
    case CacheRerun => c.messages == asked
    case OverflowRerun => c.messages == now
    case WrapUpCall(_) => false
  }

  predicate NewCallsShow(before: seq<Call>, calls: seq<Call>, asked: seq<Message>, now: seq<Message>) {
    before <= calls && forall k :: |before| <= k < |calls| ==> ShowsHistory(calls[k], asked, now)
  }

  lemma OneMoreShows(before: seq<Call>, calls: seq<Call>, c: Call, asked: seq<Message>, now: seq<Message>)
    requires NewCallsShow(before, calls, asked, asked) && ShowsHistory(c, asked, now) && before <= calls
    requires forall k :: |before| <= k < |calls| ==> calls[k].kind != OverflowRerun
    ensures NewCallsShow(before, calls + [c], asked, now)
  {
  }

  lemma FirstRequestShows(g: State)
    ensures ShowsHistory(Call(TurnCall, Breakpointed(g), g.cacheLatched), g.history, g.history)
  {
    MarkReachesTheEnd(g.history);
  }

  lemma AnsweredShows(cfg: Config, g: State, i: TurnInput)
    ensures var t := Overflow.Answered(cfg, g, i).0;
      && NewCallsShow(g.calls, t.calls, g.history, g.history) && t.history == g.history
      && forall k :: |g.calls| <= k < |t.calls| ==> t.calls[k].kind != OverflowRerun
  {
    var (s1, r1) := Send(cfg, g, TurnCall, Breakpointed(g), i.first);
    FirstRequestShows(g);
    SendKeeps(cfg, g, TurnCall, Breakpointed(g), i.first);
    var (s2, r2) := AfterEffort(cfg, s1, r1, i.afterEffort);
    EffortShows(cfg, s1, r1, i.afterEffort, g.calls);
    CacheShows(cfg, s2, r2, i.afterCache, g.calls);
  }

  predicate AllShow(before: seq<Call>, s: State) {
    NewCallsShow(before, s.calls, s.history, s.history)
    && forall k :: |before| <= k < |s.calls| ==> s.calls[k].kind != OverflowRerun
  }

  lemma EffortShows(cfg: Config, s: State, r: Reply, out: StreamOutcome, before: seq<Call>)
    requires AllShow(before, s)
    ensures var t := AfterEffort(cfg, s, r, out).0; AllShow(before, t) && t.history == s.history
  {
    SendKeeps(cfg, s.(effortLatched := true), EffortRerun, s.history, out);
  }

  lemma CacheShows(cfg: Config, s: State, r: Reply, out: StreamOutcome, before: seq<Call>)
    requires AllShow(before, s)
    ensures var t := AfterCache(cfg, s, r, out).0; AllShow(before, t) && t.history == s.history
  {
    SendKeeps(cfg, s.(cacheLatched := true), CacheRerun, s.history, out);
  }

  lemma OverflowShows(cfg: Config, t: State, r: Reply, i: TurnInput, before: seq<Call>)
    requires NewCallsShow(before, t.calls, t.history, t.history)
    requires forall k :: |before| <= k < |t.calls| ==> t.calls[k].kind != OverflowRerun
    ensures var u := AfterOverflow(cfg, t, r, i.recovery, i.afterOverflow).0;
      NewCallsShow(before, u.calls, t.history, u.history)
  {
    if r.err.Some? {
      var (low, recovered) := NoteOverflow(cfg, t, r.err.value, i.recovery);
      RecoveryKeepsCalls(cfg, t, r.err.value, i.recovery);
      if recovered {
        SendKeeps(cfg, low, OverflowRerun, low.history, i.afterOverflow);
        OneMoreShows(before, t.calls, Call(OverflowRerun, low.history, low.cacheLatched), t.history, low.history);
      }
    }
  }

  lemma RecoveryKeepsCalls(cfg: Config, s: State, err: Failure, sums: Summaries)
    ensures var (t, recovered) := NoteOverflow(cfg, s, err, sums);
      t.calls == s.calls && (!recovered ==> t.history == s.history)
  {
  }

  /** Every request of a turn shows the history it is meant to. */
  lemma RequestsShowHistory(cfg: Config, s: State, i: TurnInput)
    ensures NewCallsShow(s.calls, Told(cfg, s, i).calls, Asking(cfg, s, i).history, Told(cfg, s, i).history)
  {
    var b := Begin(s, i);
    var g := AutoCompact(cfg, b, i.gate);
    GateKeepsRest(b, CompactionDue(cfg, b), Compact(b.history, Window(cfg, b), i.gate));
    var (t, r) := Overflow.Answered(cfg, g, i);
    AnsweredShows(cfg, g, i);
    OverflowShows(cfg, t, r, i, g.calls);
    ConverseIsAnswered(cfg, g, i);
  }

  /** A guard's summary request shows the history, but for marks, and one instruction from the user behind it. */
  lemma SummaryRequestShows(cfg: Config, s: State, guard: Guard, i: TurnInput)
    requires !i.wrapUpCancelled
    ensures var t := WrapUp(cfg, s, guard, i);
      && |t.calls| == |s.calls| + 1 && s.calls <= t.calls
      && var c := t.calls[|s.calls|];
         && c.kind == WrapUpCall(guard) && |c.messages| == |s.history| + 1
         && (forall k :: 0 <= k < |s.history| ==> SameButMarks(c.messages[k], s.history[k]))
         && Human(c.messages[|s.history|])
  {
    MarkReachesTheEnd(s.history);
    KnownRoles();
    SendKeeps(cfg, s, WrapUpCall(guard), Breakpointed(s) + [WrapUpMessage(guard)], i.wrapUp);
  }

  /** A message that came in too late for a turn is shown by the next turn's request, together with what is steered in
      then, unless they do not fit the kept tail of a compaction right before it. */
  lemma LateMessagesAreShown(cfg: Config, s: State, i: TurnInput, j: TurnInput)
    requires Succeeds(cfg, s, i) && ToolUses(ReplyBlocks(cfg, s, i)) == [] && i.followUps != []
    requires HostSpeaks(i) && HostSpeaks(j)
    ensures var t := Turn(cfg, s, i).0;
      FitsTail(i.followUps + j.steering, Window(cfg, t)) ==>
        EndsWith(Asking(cfg, t, j).history, i.followUps + j.steering)
  {
    PlainTurn(cfg, s, i);
    LatestAreAsked(cfg, Turn(cfg, s, i).0, WithReply(cfg, s, i), i.followUps, j);
  }

  lemma LatestAreAsked(cfg: Config, t: State, h: seq<Message>, followUps: seq<Message>, j: TurnInput)
    requires t.history == h + followUps && HostSpeaks(j) && forall k :: 0 <= k < |followUps| ==> TailBoundary(followUps[k])
    ensures FitsTail(followUps + j.steering, Window(cfg, t)) ==> EndsWith(Asking(cfg, t, j).history, followUps + j.steering)
  {
    var b, latest := Begin(t, j), followUps + j.steering;
    assert b.history == h + latest;
    forall k | 0 <= k < |latest| ensures TailBoundary(latest[k]) {
      assert latest[k] == if k < |followUps| then followUps[k] else j.steering[k - |followUps|];
    }
    LatestKeptIff(cfg, b, h, latest, j.gate);
  }
}
