/** The agent loop as a function of its inputs: one turn at a time, and whole runs (app/agentcore/loop.go). */
module Agent {
  import opened Text
  import opened Messages
  import opened Wrappers
  import opened Compaction
  import opened Cache
  import opened Media
  import opened Streaming
  import opened ToolBatch

  const DEFAULT_MAX_IDENTICAL_TOOL_TURNS: nat := 5
  const MAX_CONSECUTIVE_TOOL_ERRORS: nat := 5
  const MAX_CONTEXT_OVERFLOW_RETRIES: nat := 3
  const MIN_CONTEXT_OVERFLOW_WINDOW: nat := 32000
  const MAX_TRUNCATION_RETRIES: nat := 2
  const COMPACT_FAILURE_COOLDOWN_TURNS: nat := 3
  const COMPACT_FAILURE_LIMIT: nat := 3
  const STOP_REASON_MAX_TOKENS := "max_tokens"

  datatype Config = Config(window: int, maxIdentical: int, effort: bool, parse: string -> string)

  function MaxIdentical(cfg: Config): (n: nat)
    ensures n > 0
  {
    if cfg.maxIdentical > 0 then cfg.maxIdentical else DEFAULT_MAX_IDENTICAL_TOOL_TURNS
  }

  // ----- What the environment does during one turn -----

  /** A failed stream, by what its error text points at. */
  datatype Failure = Failure(effort: bool, cache: bool, overflow: bool)

  datatype StreamOutcome = StreamOutcome(events: seq<Event>, err: Option<Failure>)

  datatype TurnInput = TurnInput(
    cancelled: bool, steering: seq<Message>, gate: Summaries,
    first: StreamOutcome, afterEffort: StreamOutcome, afterCache: StreamOutcome,
    recovery: Summaries, afterOverflow: StreamOutcome, cancelledMidway: bool,
    followUps: seq<Message>, outs: nat -> ToolOutcome, ran: nat, resultsWriteFails: bool,
    wrapUpCancelled: bool, wrapUp: StreamOutcome)

  // ----- State and trace -----

  datatype Guard = DuplicateCalls | RepeatedErrors

  datatype CallKind = TurnCall | EffortRerun | CacheRerun | OverflowRerun | WrapUpCall(guard: Guard)

  /** A request as sent, and whether cache marks had been given up by then. */
  datatype Call = Call(kind: CallKind, messages: seq<Message>, latched: bool)

  datatype GateVerdict = Disabled | Cooling | BelowThreshold | NothingYet | AttemptFailed | AttemptSucceeded

  /** A turn that asked for tools: its signature, whether it was truncated, its executed results' error flags. */
  datatype ToolTurn = ToolTurn(signature: string, truncated: bool, errors: seq<bool>)

  datatype State = State(
    history: seq<Message>, turns: nat, contextTokens: nat, frameEmitted: bool, stopLast: string,
    truncStreak: nat, lastSignature: string, dupStreak: nat, errStreak: nat,
    cooldown: nat, failures: nat, autoCompacts: nat,
    effortLatched: bool, cacheLatched: bool, overflowWindow: nat, overflows: nat,
    toolCalls: seq<Record>,
    calls: seq<Call>, gates: seq<GateVerdict>, toolTurns: seq<ToolTurn>)

  function Start(history: seq<Message>): State {
    State(history, 0, 0, false, "", 0, "", 0, 0, 0, 0, 0, false, false, 0, 0, [], [], [], [])
  }

  datatype Ending = Success | Cancelled | RunError | TooManyTruncations | NoProgress(guard: Guard) | WriteError

  datatype Verdict = Continue | Done(ending: Ending)

  // ----- Compaction gate -----

  function Window(cfg: Config, s: State): (w: nat)
    ensures w > 0
  {
    var w := if cfg.window <= 0 then DEFAULT_CONTEXT_WINDOW else cfg.window;
    if 0 < s.overflowWindow < w then s.overflowWindow else w
  }

  function Measured(s: State): nat {
    if s.contextTokens > Tokens(s.history) then s.contextTokens else Tokens(s.history)
  }

  predicate CompactionDue(cfg: Config, s: State) {
    Measured(s) >= Window(cfg, s) * 3 / 4
  }

  /** The gate's decision; `c` is what a compaction would give if it is attempted. */
  function Gate(s: State, due: bool, c: CompactResult): State {
    if s.failures >= COMPACT_FAILURE_LIMIT then s.(gates := s.gates + [Disabled])
    else if s.cooldown > 0 then s.(cooldown := s.cooldown - 1, gates := s.gates + [Cooling])
    else if !due then s.(gates := s.gates + [BelowThreshold])
    else
      match c
      case NothingToCompact => s.(gates := s.gates + [NothingYet])
      case Failed =>
        s.(failures := s.failures + 1, cooldown := COMPACT_FAILURE_COOLDOWN_TURNS, gates := s.gates + [AttemptFailed])
      case Compacted(ms, _) =>
        s.(failures := 0, cooldown := 0, autoCompacts := s.autoCompacts + 1,
           history := ms, contextTokens := Tokens(ms), gates := s.gates + [AttemptSucceeded])
  }

  function AutoCompact(cfg: Config, s: State, sums: Summaries): State {
    Gate(s, CompactionDue(cfg, s), Compact(s.history, Window(cfg, s), sums))
  }

  // ----- Requests -----

  datatype Reply = Reply(blocks: seq<Block>, stop: string, err: Option<Failure>)

  /** One streamed request; the blocks of a failed stream are thrown away. */
  function Send(cfg: Config, s: State, kind: CallKind, messages: seq<Message>, out: StreamOutcome): (State, Reply) {
    var d := AbsorbAll(Draft([], map[], "", s.contextTokens, false), out.events, !kind.WrapUpCall?, cfg.parse);
    (s.(contextTokens := d.tokens, frameEmitted := d.framed, calls := s.calls + [Call(kind, messages, s.cacheLatched)]),
     if out.err.Some? then Reply([], "", out.err) else Reply(Cleaned(d.blocks), d.stop, None))
  }

  function Breakpointed(s: State): seq<Message> {
    if s.cacheLatched then s.history else MarkMessages(s.history)
  }

  /** The lowered window after the upstream refused a context of the measured size. */
  function LoweredWindow(measured: nat, prev: nat): nat {
    var half := if measured / 2 < MIN_CONTEXT_OVERFLOW_WINDOW then MIN_CONTEXT_OVERFLOW_WINDOW else measured / 2;
    if half < prev then half
    else if prev / 2 < MIN_CONTEXT_OVERFLOW_WINDOW then MIN_CONTEXT_OVERFLOW_WINDOW
    else prev / 2
  }

  /** Recovery from an over-long context; possible only while the turn's last stream has sent no turn-start frame. */
  function NoteOverflow(cfg: Config, s: State, err: Failure, sums: Summaries): (State, bool) {
    if s.overflows >= MAX_CONTEXT_OVERFLOW_RETRIES || !err.overflow || s.frameEmitted || Measured(s) == 0 then (s, false)
    else Recover(cfg, s.(overflowWindow := LoweredWindow(Measured(s), Window(cfg, s))), sums)
  }

  /** Compacting for the window just lowered. */
  function Recover(cfg: Config, low: State, sums: Summaries): (State, bool) {
    Recovered(low, Compact(low.history, Window(cfg, low), sums))
  }

  function Recovered(low: State, c: CompactResult): (State, bool) {
    if c.Compacted?
    then (low.(overflows := low.overflows + 1, history := c.messages, contextTokens := Tokens(c.messages)), true)
    else (low, false)
  }

  /** A failure that blames an effort which was sent, and was not given up before. */
  predicate EffortDue(cfg: Config, s: State, err: Option<Failure>) {
    err.Some? && !s.effortLatched && cfg.effort && err.value.effort
  }

  /** A failure that blames the cache marks, which were not given up before. */
  predicate CacheDue(s: State, err: Option<Failure>) {
    err.Some? && !s.cacheLatched && err.value.cache
  }

  function AfterEffort(cfg: Config, s: State, r: Reply, out: StreamOutcome): (State, Reply) {
    if EffortDue(cfg, s, r.err)
    then Send(cfg, s.(effortLatched := true), EffortRerun, s.history, out)
    else (s, r)
  }

  function AfterCache(cfg: Config, s: State, r: Reply, out: StreamOutcome): (State, Reply) {
    if CacheDue(s, r.err)
    then Send(cfg, s.(cacheLatched := true), CacheRerun, s.history, out)
    else (s, r)
  }

  function AfterOverflow(cfg: Config, s: State, r: Reply, sums: Summaries, out: StreamOutcome): (State, Reply) {
    if r.err.None? then (s, r)
    else
      var (s', recovered) := NoteOverflow(cfg, s, r.err.value, sums);
      if recovered then Send(cfg, s', OverflowRerun, s'.history, out) else (s', r)
  }

  /** The turn's request and its up to three reruns. */
  function Converse(cfg: Config, s: State, i: TurnInput): (State, Reply) {
    var (s1, r1) := Send(cfg, s, TurnCall, Breakpointed(s), i.first);
    var (s2, r2) := AfterEffort(cfg, s1, r1, i.afterEffort);
    var (s3, r3) := AfterCache(cfg, s2, r2, i.afterCache);
    AfterOverflow(cfg, s3, r3, i.recovery, i.afterOverflow)
  }

  // ----- Tools and guards -----

  function ToolUses(bs: seq<Block>): seq<Block> {
    if bs == [] then [] else (if bs[0].typ == ToolUse then [bs[0]] else []) + ToolUses(bs[1..])
  }

  const UNIT_SEPARATOR := '\U{1F}'
  const RECORD_SEPARATOR := '\U{1E}'

  function Signature(uses: seq<Block>): string {
    if uses == [] then ""
    else uses[0].name + [UNIT_SEPARATOR] + uses[0].input + [RECORD_SEPARATOR] + Signature(uses[1..])
  }

  const TRUNCATED_RESULT := "上一条回复被 max_tokens 截断，工具参数不完整，未执行。请拆小后重试。"
  const TRUNCATED_RECORD := "上一条回复被 max_tokens 截断，工具参数不完整，未执行"

  function TruncatedBlocks(uses: seq<Block>): seq<Block> {
    seq(|uses|, i requires 0 <= i < |uses| =>
      Block(ToolResult, useId := uses[i].id, content := Str(TRUNCATED_RESULT), isError := true))
  }

  function TruncatedRecords(uses: seq<Block>): seq<Record> {
    seq(|uses|, i requires 0 <= i < |uses| => RecordOf(uses[i], ToolOutcome(Str(TRUNCATED_RECORD), true)))
  }

  /** The error counter after a list of results: any success resets it. */
  function ErrorStreak(streak: nat, results: seq<Block>): nat
    decreases |results|
  {
    if results == [] then streak
    else ErrorStreak(if results[0].isError then streak + 1 else 0, results[1..])
  }

  function ErrorFlags(results: seq<Block>): seq<bool> {
    seq(|results|, i requires 0 <= i < |results| => results[i].isError)
  }

  const WRAP_UP_PROMPT := "，本轮不会再执行任何工具。请用简洁的文字总结：已经完成了什么、当前状态如何、还剩哪些没做完、建议下一步怎么做。不要调用任何工具。"

  function WrapUpMessage(guard: Guard): Message {
    Message(USER, Str((if guard == DuplicateCalls then "模型连续发起完全相同的工具调用，判定为无进展" else "工具连续执行失败，疑似陷入重试循环")
                      + WRAP_UP_PROMPT))
  }

  function WrapUp(cfg: Config, s: State, guard: Guard, i: TurnInput): State {
    if i.wrapUpCancelled then s
    else Send(cfg, s, WrapUpCall(guard), Breakpointed(s) + [WrapUpMessage(guard)], i.wrapUp).0
  }

  function Remember(s: State, r: Reply): State {
    s.(stopLast := r.stop, history := StubHistory(s.history + [Message(ASSISTANT, Blocks(r.blocks))]))
  }

  /** No tools asked for: the turn is over, unless messages came in too late for it. */
  function CloseTurn(s: State, i: TurnInput): (State, Verdict) {
    if i.followUps != [] then (s.(history := s.history + i.followUps), Continue) else (s, Done(Success))
  }

  /** A truncated request for tools is answered with failures, and nothing is executed. */
  function RefillTruncated(s: State, uses: seq<Block>): (State, Verdict) {
    var t := s.(history := s.history + [Message(USER, Blocks(TruncatedBlocks(uses)))],
                toolCalls := s.toolCalls + TruncatedRecords(uses),
                truncStreak := s.truncStreak + 1,
                toolTurns := s.toolTurns + [ToolTurn(Signature(uses), true, [])]);
    (t, if t.truncStreak > MAX_TRUNCATION_RETRIES then Done(TooManyTruncations) else Continue)
  }

  function NoteSignature(s: State, sig: string): State {
    s.(truncStreak := 0, lastSignature := sig, dupStreak := if sig == s.lastSignature then s.dupStreak + 1 else 1)
  }

  function Execute(cfg: Config, s: State, uses: seq<Block>, i: TurnInput): (State, Verdict) {
    var ran := if i.ran < |uses| then i.ran else |uses|;
    var results := SequentialBlocks(uses, i.outs, ran);
    var t := s.(history := s.history + [Message(USER, Blocks(results))],
                toolCalls := s.toolCalls + SequentialRecords(uses, i.outs, ran),
                errStreak := ErrorStreak(s.errStreak, results),
                toolTurns := s.toolTurns + [ToolTurn(Signature(uses), false, ErrorFlags(results))]);
    if t.errStreak >= MAX_CONSECUTIVE_TOOL_ERRORS then (WrapUp(cfg, t, RepeatedErrors, i), Done(NoProgress(RepeatedErrors)))
    else (t, if i.resultsWriteFails then Done(WriteError) else Continue)
  }

  function Settle(cfg: Config, s: State, r: Reply, i: TurnInput): (State, Verdict) {
    var uses := ToolUses(r.blocks);
    var t := Remember(s, r);
    if uses == [] then CloseTurn(t, i)
    else if r.stop == STOP_REASON_MAX_TOKENS then RefillTruncated(t, uses)
    else
      var n := NoteSignature(t, Signature(uses));
      if n.dupStreak >= MaxIdentical(cfg)
      then (WrapUp(cfg, n, DuplicateCalls, i), Done(NoProgress(DuplicateCalls)))
      else Execute(cfg, n, uses, i)
  }

  // ----- Turns and runs -----

  function Begin(s: State, i: TurnInput): State {
    s.(turns := s.turns + 1, history := s.history + i.steering)
  }

  /** What follows the conversation with the upstream: a failed one ends the run. */
  function Conclude(cfg: Config, s: State, r: Reply, i: TurnInput): (State, Verdict) {
    if r.err.Some? then (s, Done(if i.cancelledMidway then Cancelled else RunError)) else Settle(cfg, s, r, i)
  }

  function Turn(cfg: Config, s: State, i: TurnInput): (State, Verdict) {
    if i.cancelled then (s, Done(Cancelled))
    else
      var (t, r) := Converse(cfg, AutoCompact(cfg, Begin(s, i), i.gate), i);
      Conclude(cfg, t, r, i)
  }

  type TurnFunction = (State, TurnInput) -> (State, Verdict)

  function TurnOf(cfg: Config): TurnFunction {
    (s, i) => Turn(cfg, s, i)
  }

  /** Turns over any finite stretch of inputs, up to the first one that ends the loop. */
  function Repeat(turn: TurnFunction, s: State, ins: seq<TurnInput>): (State, Verdict)
    decreases |ins|
  {
    if ins == [] then (s, Continue)
    else
      var (t, v) := turn(s, ins[0]);
      if v.Done? then (t, v) else Repeat(turn, t, ins[1..])
  }

  /** A run over any finite stretch of inputs; Continue means the loop is still going. */
  function Run(cfg: Config, s: State, ins: seq<TurnInput>): (State, Verdict) {
    Repeat(TurnOf(cfg), s, ins)
  }
}
