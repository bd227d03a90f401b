/** Whether a turn is sent again after an overflow although the host has seen frames of it (app/agentcore/loop.go,
    noteContextOverflow). */
module Overflow {
  import opened Messages
  import opened Wrappers
  import opened Compaction
  import opened Cache
  import opened Streaming
  import opened ToolBatch
  import opened Agent
  import opened AgentProperties
  import opened Conversation

  // ----- What a turn sent -----

  /** The stream that answered a turn's request of this kind. */
  function StreamOf(i: TurnInput, kind: CallKind): StreamOutcome {
    match kind
    case TurnCall => i.first
    case EffortRerun => i.afterEffort
    case CacheRerun => i.afterCache
    case OverflowRerun => i.afterOverflow
    case WrapUpCall(_) => i.wrapUp
  }

  function KindsOf(cs: seq<Call>): seq<CallKind> {
    seq(|cs|, k requires 0 <= k < |cs| => cs[k].kind)
  }

  /** The kinds of the requests one conversation with the upstream adds to those sent before. */
  function KindsSent(cfg: Config, s: State, i: TurnInput): seq<CallKind> {
    var kinds := KindsOf(Converse(cfg, s, i).0.calls);
    if |s.calls| <= |kinds| then kinds[|s.calls|..] else []
  }

  predicate EndsInRerun(kinds: seq<CallKind>) {
    kinds != [] && kinds[|kinds| - 1] == OverflowRerun
  }

  /** The host was sent frames from the stream of one of these requests. */
  predicate FramesOut(i: TurnInput, kinds: seq<CallKind>) {
    exists k :: 0 <= k < |kinds| && AnyFrame(StreamOf(i, kinds[k]).events)
  }

  /** The turn was sent again after an overflow behind frames from its earlier streams. */
  predicate RerunsBehindFrames(i: TurnInput, kinds: seq<CallKind>) {
    EndsInRerun(kinds) && FramesOut(i, kinds[..|kinds| - 1])
  }

  // ----- What decides it -----

  function AfterFirst(cfg: Config, s: State, i: TurnInput): StreamOutcome {
    if EffortDue(cfg, s, i.first.err) then i.afterEffort else i.first
  }

  /** The last stream before an overflow can be handled. */
  function LastStream(cfg: Config, s: State, i: TurnInput): StreamOutcome {
    if CacheDue(s, AfterFirst(cfg, s, i).err) then i.afterCache else AfterFirst(cfg, s, i)
  }

  /** The state in which that stream left the loop. */
  function Answered(cfg: Config, s: State, i: TurnInput): (State, Reply) {
    var (s1, r1) := Send(cfg, s, TurnCall, Breakpointed(s), i.first);
    var (s2, r2) := AfterEffort(cfg, s1, r1, i.afterEffort);
    AfterCache(cfg, s2, r2, i.afterCache)
  }

  function Optional(due: bool, kind: CallKind): seq<CallKind> {
    if due then [kind] else []
  }

  /** The stream blames the context and has sent no start, recoveries are left, and the history can be compacted for
      the lowered window. */
  predicate Recoverable(cfg: Config, s: State, out: StreamOutcome, sums: Summaries) {
    && out.err.Some? && out.err.value.overflow && !AnyStart(out.events)
    && s.overflows < MAX_CONTEXT_OVERFLOW_RETRIES && Measured(s) > 0
    && var low := s.(overflowWindow := LoweredWindow(Measured(s), Window(cfg, s)));
       Compact(low.history, Window(cfg, low), sums).Compacted?
  }

  predicate EarlierFrames(cfg: Config, s: State, i: TurnInput) {
    (EffortDue(cfg, s, i.first.err) && AnyFrame(i.first.events))
    || (CacheDue(s, AfterFirst(cfg, s, i).err) && AnyFrame(AfterFirst(cfg, s, i).events))
  }

  /** What a reply tells of its stream: its failure, and whether the flag saw a start. */
  predicate Reflects(s: State, r: Reply, out: StreamOutcome) {
    r.err == out.err && (s.frameEmitted <==> AnyStart(out.events))
  }

  lemma SendReflects(cfg: Config, s: State, kind: CallKind, messages: seq<Message>, out: StreamOutcome)
    requires !kind.WrapUpCall?
    ensures var (t, r) := Send(cfg, s, kind, messages, out);
      && Reflects(t, r, out)
      && t == s.(contextTokens := t.contextTokens, frameEmitted := t.frameEmitted, calls := t.calls)
      && KindsOf(t.calls) == KindsOf(s.calls) + [kind]
  {
    SendKeeps(cfg, s, kind, messages, out);
    FlagIff(Draft([], map[], "", s.contextTokens, false), out.events, true, cfg.parse);
  }

  lemma EffortStep(cfg: Config, s: State, r: Reply, i: TurnInput)
    requires Reflects(s, r, i.first)
    ensures var (t, r') := AfterEffort(cfg, s, r, i.afterEffort);
      var due := EffortDue(cfg, s, i.first.err);
      && Reflects(t, r', if due then i.afterEffort else i.first)
      && KindsOf(t.calls) == KindsOf(s.calls) + Optional(due, EffortRerun)
      && t.cacheLatched == s.cacheLatched
  {
    SendReflects(cfg, s.(effortLatched := true), EffortRerun, s.history, i.afterEffort);
  }

  lemma CacheStep(cfg: Config, s: State, r: Reply, out: StreamOutcome, next: StreamOutcome)
    requires Reflects(s, r, out)
    ensures var (t, r') := AfterCache(cfg, s, r, next);
      var due := CacheDue(s, out.err);
      && Reflects(t, r', if due then next else out)
      && KindsOf(t.calls) == KindsOf(s.calls) + Optional(due, CacheRerun)
  {
    SendReflects(cfg, s.(cacheLatched := true), CacheRerun, s.history, next);
  }

  lemma OverflowStep(cfg: Config, s: State, r: Reply, out: StreamOutcome, i: TurnInput)
    requires Reflects(s, r, out)
    ensures var (t, r') := AfterOverflow(cfg, s, r, i.recovery, i.afterOverflow);
      var due := Recoverable(cfg, s, out, i.recovery);
      KindsOf(t.calls) == KindsOf(s.calls) + Optional(due, OverflowRerun) && (due ==> r'.err == i.afterOverflow.err)
  {
    if r.err.Some? {
      var (t, recovered) := NoteOverflow(cfg, s, r.err.value, i.recovery);
      RecoveredIff(cfg, s, r.err.value, i.recovery, out);
      if recovered {
        SendReflects(cfg, t, OverflowRerun, t.history, i.afterOverflow);
      }
    }
  }

  lemma RecoveredIff(cfg: Config, s: State, err: Failure, sums: Summaries, out: StreamOutcome)
    requires out.err == Some(err) && (s.frameEmitted <==> AnyStart(out.events))
    ensures var (t, recovered) := NoteOverflow(cfg, s, err, sums);
      (recovered <==> Recoverable(cfg, s, out, sums)) && t.calls == s.calls
  {
  }

  function KindsBefore(cfg: Config, s: State, i: TurnInput): seq<CallKind> {
    [TurnCall] + Optional(EffortDue(cfg, s, i.first.err), EffortRerun)
    + Optional(CacheDue(s, AfterFirst(cfg, s, i).err), CacheRerun)
  }

  lemma FirstStep(cfg: Config, s: State, i: TurnInput)
    ensures var (t, r) := Send(cfg, s, TurnCall, Breakpointed(s), i.first);
      && Reflects(t, r, i.first) && KindsOf(t.calls) == KindsOf(s.calls) + [TurnCall]
      && EffortDue(cfg, t, i.first.err) == EffortDue(cfg, s, i.first.err)
      && t.cacheLatched == s.cacheLatched
  {
    SendReflects(cfg, s, TurnCall, Breakpointed(s), i.first);
  }

  lemma AnsweredStep(cfg: Config, s: State, i: TurnInput)
    ensures var (t, r) := Answered(cfg, s, i);
      Reflects(t, r, LastStream(cfg, s, i)) && KindsOf(t.calls) == KindsOf(s.calls) + KindsBefore(cfg, s, i)
  {
    var (s1, r1) := Send(cfg, s, TurnCall, Breakpointed(s), i.first);
    FirstStep(cfg, s, i);
    var (s2, r2) := AfterEffort(cfg, s1, r1, i.afterEffort);
    EffortStep(cfg, s1, r1, i);
    CacheStep(cfg, s2, r2, AfterFirst(cfg, s, i), i.afterCache);
  }

  lemma ConverseIsAnswered(cfg: Config, s: State, i: TurnInput)
    ensures var (t, r) := Answered(cfg, s, i);
      Converse(cfg, s, i) == AfterOverflow(cfg, t, r, i.recovery, i.afterOverflow)
  {
  }

  /** The requests of one conversation, in terms of what its streams brought. */
  lemma KindsSentAre(cfg: Config, s: State, i: TurnInput)
    ensures KindsSent(cfg, s, i) == KindsBefore(cfg, s, i)
            + Optional(Recoverable(cfg, Answered(cfg, s, i).0, LastStream(cfg, s, i), i.recovery), OverflowRerun)
    ensures Recoverable(cfg, Answered(cfg, s, i).0, LastStream(cfg, s, i), i.recovery)
        ==> Converse(cfg, s, i).1.err == i.afterOverflow.err
  {
    var (t, r) := Answered(cfg, s, i);
    AnsweredStep(cfg, s, i);
    OverflowStep(cfg, t, r, LastStream(cfg, s, i), i);
    ConverseIsAnswered(cfg, s, i);
    assert |KindsOf(s.calls)| == |s.calls|;
  }

  // ----- When a turn is sent again behind frames -----

  /** Two streams at most come before the last one a conversation looks at. */
  lemma FramesOutIff(i: TurnInput, effort: bool, cache: bool)
    ensures FramesOut(i, [TurnCall] + Optional(effort, EffortRerun) + Optional(cache, CacheRerun))
       <==> AnyFrame(i.first.events) || (effort && AnyFrame(i.afterEffort.events)) || (cache && AnyFrame(i.afterCache.events))
  {
    var kinds := [TurnCall] + Optional(effort, EffortRerun) + Optional(cache, CacheRerun);
    assert kinds[0] == TurnCall;
    assert effort ==> kinds[1] == EffortRerun;
    assert cache ==> kinds[|kinds| - 1] == CacheRerun;
  }

  lemma RerunAtEnd(i: TurnInput, before: seq<CallKind>, due: bool)
    requires !EndsInRerun(before)
    ensures var kinds := before + Optional(due, OverflowRerun);
      (EndsInRerun(kinds) <==> due) && (RerunsBehindFrames(i, kinds) <==> due && FramesOut(i, before))
  {
    var kinds := before + Optional(due, OverflowRerun);
    if due {
      assert kinds[..|kinds| - 1] == before;
    } else {
      assert kinds == before;
    }
  }

  lemma BeforeIff(cfg: Config, s: State, i: TurnInput)
    ensures !EndsInRerun(KindsBefore(cfg, s, i))
    ensures FramesOut(i, KindsBefore(cfg, s, i)) <==> AnyFrame(LastStream(cfg, s, i).events) || EarlierFrames(cfg, s, i)
  {
    FramesOutIff(i, EffortDue(cfg, s, i.first.err), CacheDue(s, AfterFirst(cfg, s, i).err));
  }

  /** An overflow rerun follows frames of its own turn exactly when it is due at all and either the last stream before
      it sent frames without a start, or a stream already given up for its effort or its cache marks had sent any. */
  lemma RerunBehindFramesIff(cfg: Config, s: State, i: TurnInput)
    ensures var last := LastStream(cfg, s, i);
      var due := Recoverable(cfg, Answered(cfg, s, i).0, last, i.recovery);
      && (EndsInRerun(KindsSent(cfg, s, i)) <==> due)
      && (RerunsBehindFrames(i, KindsSent(cfg, s, i)) <==>
          due && ((AnyFrame(last.events) && !AnyStart(last.events)) || EarlierFrames(cfg, s, i)))
  {
    var due := Recoverable(cfg, Answered(cfg, s, i).0, LastStream(cfg, s, i), i.recovery);
    KindsSentAre(cfg, s, i);
    BeforeIff(cfg, s, i);
    RerunAtEnd(i, KindsBefore(cfg, s, i), due);
  }

  /** A refused stream has sent nothing to the host. */
  predicate CleanRefusal(out: StreamOutcome) {
    out.err.Some? && (out.err.value.effort || out.err.value.cache || out.err.value.overflow) ==> !AnyFrame(out.events)
  }

  /** So what the loop counts on, that a refusal comes before any frame, is enough. */
  lemma CleanRefusalsAreEnough(cfg: Config, s: State, i: TurnInput)
    requires CleanRefusal(i.first) && CleanRefusal(i.afterEffort) && CleanRefusal(i.afterCache)
    ensures !RerunsBehindFrames(i, KindsSent(cfg, s, i))
  {
    RerunBehindFramesIff(cfg, s, i);
  }

  // ----- Two turns that do it -----

  const REFUSES_CONTEXT := Failure(false, false, true)
  const REFUSES_EFFORT := Failure(true, false, false)

  /** A first turn over three short messages in a small window; only its streams are left open. */
  function SmallTurn(first: StreamOutcome, afterEffort: StreamOutcome, outs: nat -> ToolOutcome): TurnInput {
    var summary, failed := Summaries(Summary("s"), Broken), StreamOutcome([], Some(UNEXPLAINED));
    TurnInput(false, [], summary, first, afterEffort, failed, summary, failed, false, [], outs, 0, false, true, failed)
  }

  function SmallStart(): State {
    Agent.Start(Opening() + Steered())
  }

  lemma AnsweredKeeps(cfg: Config, s: State, i: TurnInput)
    ensures var t := Answered(cfg, s, i).0;
      t.history == s.history && t.overflows == s.overflows && t.overflowWindow == s.overflowWindow
  {
    var (s1, r1) := Send(cfg, s, TurnCall, Breakpointed(s), i.first);
    var (s2, r2) := AfterEffort(cfg, s1, r1, i.afterEffort);
    assert s1.history == s.history && s2.history == s1.history;
  }

  /** In so small a window the lowered one is no lower, and the history can be compacted for it. */
  lemma SmallRecoverable(cfg: Config, t: State, out: StreamOutcome)
    requires cfg.window == 26 && t.history == Opening() + Steered() && t.overflows == 0 && t.overflowWindow == 0
    requires out.err == Some(REFUSES_CONTEXT) && !AnyStart(out.events)
    ensures Recoverable(cfg, t, out, Summaries(Summary("s"), Broken))
  {
    SteeredTokens();
    OpeningCompacts(26);
    assert Window(cfg, t) == 26 && LoweredWindow(Measured(t), 26) >= 13;
    var low := t.(overflowWindow := LoweredWindow(Measured(t), Window(cfg, t)));
    assert Window(cfg, low) == 26;
  }

  lemma SmallGate(cfg: Config, i: TurnInput)
    requires cfg.window == 26 && i.steering == []
    ensures var b := Begin(SmallStart(), i); AutoCompact(cfg, b, i.gate) == b.(gates := [BelowThreshold])
  {
    SteeredTokens();
    var b := Begin(SmallStart(), i);
    assert b.history == Opening() + Steered();
    assert !CompactionDue(cfg, b);
  }

  lemma SmallKinds(cfg: Config, b: State, g: State, i: TurnInput)
    requires cfg.window == 26 && i.recovery == Summaries(Summary("s"), Broken) && i.afterOverflow.err.Some?
    requires b.history == Opening() + Steered() && b.overflows == 0 && b.overflowWindow == 0 && g == b.(gates := g.gates)
    requires LastStream(cfg, b, i).err == Some(REFUSES_CONTEXT) && !AnyStart(LastStream(cfg, b, i).events)
    ensures KindsSent(cfg, g, i) == KindsBefore(cfg, b, i) + [OverflowRerun] && Converse(cfg, g, i).1.err.Some?
  {
    SameStreams(cfg, b, g, i);
    AnsweredKeeps(cfg, g, i);
    SmallRecoverable(cfg, Answered(cfg, g, i).0, LastStream(cfg, g, i));
    KindsSentAre(cfg, g, i);
  }

  /** A first turn refused for its context by its last stream, before any start, is sent again. */
  lemma SmallTurnReruns(cfg: Config, i: TurnInput)
    requires cfg.window == 26
    requires i == SmallTurn(i.first, i.afterEffort, i.outs)
    requires var last := LastStream(cfg, SmallStart(), i);
      last.err == Some(REFUSES_CONTEXT) && !AnyStart(last.events)
    ensures KindsOf(Turn(cfg, SmallStart(), i).0.calls) == KindsBefore(cfg, SmallStart(), i) + [OverflowRerun]
  {
    var b := Begin(SmallStart(), i);
    var g := AutoCompact(cfg, b, i.gate);
    SmallGate(cfg, i);
    SameStreams(cfg, SmallStart(), b, i);
    SmallKinds(cfg, b, g, i);
    FailedConclusion(cfg, g, i);
  }

  lemma SameStreams(cfg: Config, b: State, g: State, i: TurnInput)
    requires g.effortLatched == b.effortLatched && g.cacheLatched == b.cacheLatched
    ensures LastStream(cfg, g, i) == LastStream(cfg, b, i) && KindsBefore(cfg, g, i) == KindsBefore(cfg, b, i)
  {
  }

  lemma FailedConclusion(cfg: Config, g: State, i: TurnInput)
    requires Converse(cfg, g, i).1.err.Some?
    ensures var (t, r) := Converse(cfg, g, i); Conclude(cfg, t, r, i).0 == t
  {
  }

  lemma BehindFirst(i: TurnInput, kinds: seq<CallKind>)
    requires |kinds| > 1 && kinds[0] == TurnCall && EndsInRerun(kinds) && AnyFrame(i.first.events)
    ensures RerunsBehindFrames(i, kinds)
  {
    assert kinds[..|kinds| - 1][0] == TurnCall;
    assert AnyFrame(StreamOf(i, TurnCall).events);
  }

  /** Frames without a start, a text delta for one, then the refusal: the rerun follows frames of the very stream that
      was refused. */
  lemma TextThenRerun(cfg: Config, sent: seq<Event>, outs: nat -> ToolOutcome) returns (i: TurnInput)
    requires cfg.window == 26 && AnyFrame(sent) && !AnyStart(sent)
    ensures i.first == StreamOutcome(sent, Some(REFUSES_CONTEXT))
    ensures var kinds := KindsOf(Turn(cfg, SmallStart(), i).0.calls);
      kinds == [TurnCall, OverflowRerun] && RerunsBehindFrames(i, kinds)
  {
    i := SmallTurn(StreamOutcome(sent, Some(REFUSES_CONTEXT)), StreamOutcome([], None), outs);
    OneStream(cfg, i);
    BehindFirst(i, [TurnCall, OverflowRerun]);
  }

  lemma OneStream(cfg: Config, i: TurnInput)
    requires cfg.window == 26 && i == SmallTurn(i.first, i.afterEffort, i.outs)
    requires i.first.err == Some(REFUSES_CONTEXT) && !AnyStart(i.first.events)
    ensures KindsOf(Turn(cfg, SmallStart(), i).0.calls) == [TurnCall, OverflowRerun]
  {
    assert LastStream(cfg, SmallStart(), i) == i.first && KindsBefore(cfg, SmallStart(), i) == [TurnCall];
    SmallTurnReruns(cfg, i);
  }

  /** A start, then a refusal of the effort: its rerun clears the flag, and once that is refused for the context with
      nothing sent the turn goes out a third time although its start frame has been seen. */
  lemma StartThenRerun(cfg: Config, sent: seq<Event>, outs: nat -> ToolOutcome) returns (i: TurnInput)
    requires cfg.window == 26 && cfg.effort && AnyStart(sent)
    ensures i.first == StreamOutcome(sent, Some(REFUSES_EFFORT))
    ensures var kinds := KindsOf(Turn(cfg, SmallStart(), i).0.calls);
      kinds == [TurnCall, EffortRerun, OverflowRerun] && RerunsBehindFrames(i, kinds)
  {
    i := SmallTurn(StreamOutcome(sent, Some(REFUSES_EFFORT)), StreamOutcome([], Some(REFUSES_CONTEXT)), outs);
    TwoStreams(cfg, i);
    var k: nat :| k < |sent| && sent[k].Start?;
    assert SendsFrame(sent[k]);
    BehindFirst(i, [TurnCall, EffortRerun, OverflowRerun]);
  }

  lemma TwoStreams(cfg: Config, i: TurnInput)
    requires cfg.window == 26 && cfg.effort && i == SmallTurn(i.first, i.afterEffort, i.outs)
    requires i.first.err == Some(REFUSES_EFFORT)
    requires i.afterEffort.err == Some(REFUSES_CONTEXT) && !AnyStart(i.afterEffort.events)
    ensures KindsOf(Turn(cfg, SmallStart(), i).0.calls) == [TurnCall, EffortRerun, OverflowRerun]
  {
    var s := SmallStart();
    assert AfterFirst(cfg, s, i) == i.afterEffort && LastStream(cfg, s, i) == i.afterEffort;
    assert KindsBefore(cfg, s, i) == [TurnCall, EffortRerun];
    SmallTurnReruns(cfg, i);
  }
}
