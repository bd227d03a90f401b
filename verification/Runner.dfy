/** The agent loop as the object that runs it (app/agentcore/loop.go): every method is proved to do to the
    runner's fields what the functions of module Agent say, so their properties hold of this code. */
module Runner {
  import opened Text
  import opened Messages
  import opened Wrappers
  import opened Compaction
  import opened Cache
  import opened Media
  import opened Streaming
  import opened ToolBatch
  import Agent

  class Runner {
    const cfg: Agent.Config
    const parallelizable: string -> bool

    var history: seq<Message>
    var turns: nat
    var contextTokens: nat
    var turnFrameEmitted: bool
    var stopLast: string
    var truncStreak: nat
    var lastToolSignature: string
    var dupStreak: nat
    var errStreak: nat
    var compactCooldown: nat
    var compactFailures: nat
    var autoCompacts: nat
    var effortLatched: bool
    var cacheLatched: bool
    var ctxOverflowWindow: nat
    var ctxOverflows: nat
    var toolCalls: seq<Record>

    // What happened so far: requests sent, compaction verdicts, turns that asked for tools.
    ghost var calls: seq<Agent.Call>
    ghost var gates: seq<Agent.GateVerdict>
    ghost var toolTurns: seq<Agent.ToolTurn>

    ghost function View(): Agent.State
      reads this
    {
      Agent.State(history, turns, contextTokens, turnFrameEmitted, stopLast, truncStreak, lastToolSignature, dupStreak,
                  errStreak, compactCooldown, compactFailures, autoCompacts, effortLatched, cacheLatched,
                  ctxOverflowWindow, ctxOverflows, toolCalls, calls, gates, toolTurns)
    }

    constructor (cfg: Agent.Config, parallelizable: string -> bool, history: seq<Message>)
      ensures this.cfg == cfg && this.parallelizable == parallelizable
      ensures View() == Agent.Start(history)
    {
      this.cfg, this.parallelizable, this.history := cfg, parallelizable, history;
      turns, contextTokens, turnFrameEmitted, stopLast := 0, 0, false, "";
      truncStreak, lastToolSignature, dupStreak, errStreak := 0, "", 0, 0;
      compactCooldown, compactFailures, autoCompacts := 0, 0, 0;
      effortLatched, cacheLatched, ctxOverflowWindow, ctxOverflows := false, false, 0, 0;
      toolCalls, calls, gates, toolTurns := [], [], [], [];
    }

    // ----- Compaction -----

    method EffectiveContextWindow() returns (w: nat)
      ensures w == Agent.Window(cfg, View())
    {
      w := DEFAULT_CONTEXT_WINDOW;
      if cfg.window > 0 {
        w := cfg.window;
      }
      if ctxOverflowWindow > 0 && ctxOverflowWindow < w {
        w := ctxOverflowWindow;
      }
    }

    method MeasuredContext() returns (measured: nat)
      ensures measured == Agent.Measured(View())
    {
      measured := EstimateTokens(history);
      if contextTokens > measured {
        measured := contextTokens;
      }
    }

    method MaybeAutoCompact(sums: Summaries)
      modifies this
      ensures View() == Agent.AutoCompact(cfg, old(View()), sums)
    {
      var window := EffectiveContextWindow();
      ghost var s := View();
      ghost var c := Compact(history, window, sums);
      ghost var due := Agent.CompactionDue(cfg, s);
      assert Agent.AutoCompact(cfg, s, sums) == Agent.Gate(s, due, c);
      if compactFailures >= Agent.COMPACT_FAILURE_LIMIT {
        gates := gates + [Agent.Disabled];
        return;
      }
      if compactCooldown > 0 {
        compactCooldown := compactCooldown - 1;
        gates := gates + [Agent.Cooling];
        return;
      }
      var threshold := window * 3 / 4;
      var measured := MeasuredContext();
      if measured < threshold {
        gates := gates + [Agent.BelowThreshold];
        return;
      }
      var r := CompactHistory(history, window, sums);
      TakeCompaction(r);
    }

    method TakeCompaction(r: CompactResult)
      requires compactFailures < Agent.COMPACT_FAILURE_LIMIT && compactCooldown == 0
      modifies this
      ensures View() == Agent.Gate(old(View()), true, r)
    {
      match r {
        case NothingToCompact =>
          gates := gates + [Agent.NothingYet];
        case Failed =>
          compactFailures := compactFailures + 1;
          compactCooldown := Agent.COMPACT_FAILURE_COOLDOWN_TURNS;
          gates := gates + [Agent.AttemptFailed];
        case Compacted(compacted, _) =>
          var postTokens := EstimateTokens(compacted);
          AdoptCompaction(compacted, postTokens);
      }
    }

    method AdoptCompaction(compacted: seq<Message>, postTokens: nat)
      modifies this`compactFailures, this`compactCooldown, this`autoCompacts, this`history, this`contextTokens, this`gates
      ensures compactFailures == 0 && compactCooldown == 0 && autoCompacts == old(autoCompacts) + 1
      ensures history == compacted && contextTokens == postTokens && gates == old(gates) + [Agent.AttemptSucceeded]
    {
      compactFailures := 0;
      compactCooldown := 0;
      autoCompacts := autoCompacts + 1;
      history := compacted;
      contextTokens := postTokens;
      gates := gates + [Agent.AttemptSucceeded];
    }

    // ----- Requests -----

    /** One streamed request; `kind` only labels it in the trace. */
    method Stream(kind: Agent.CallKind, messages: seq<Message>, out: Agent.StreamOutcome) returns (reply: Agent.Reply)
      modifies this
      ensures (View(), reply) == Agent.Send(cfg, old(View()), kind, messages, out)
    {
      var blocks, stop, tokens, framed := StreamTurn(out.events, contextTokens, !kind.WrapUpCall?, cfg.parse);
      contextTokens, turnFrameEmitted := tokens, framed;
      calls := calls + [Agent.Call(kind, messages, cacheLatched)];
      reply := if out.err.Some? then Agent.Reply([], "", out.err) else Agent.Reply(blocks, stop, None);
    }

    /** The messages of a request after the breakpoints were hung on it; see Cache.Request for the slices. */
    method RequestMessages() returns (messages: seq<Message>)
      ensures messages == Agent.Breakpointed(View())
    {
      messages := history;
      if !cacheLatched {
        messages := MarkMessages(messages);
      }
    }

    method NoteEffortRejection(err: Agent.Failure) returns (rerun: bool)
      modifies this`effortLatched
      ensures rerun == (!old(effortLatched) && cfg.effort && err.effort)
      ensures effortLatched == (old(effortLatched) || rerun)
    {
      rerun := false;
      if effortLatched || !cfg.effort || !err.effort {
        return;
      }
      effortLatched := true;
      rerun := true;
    }

    method NoteCacheRejection(err: Agent.Failure) returns (rerun: bool)
      modifies this`cacheLatched
      ensures rerun == (!old(cacheLatched) && err.cache)
      ensures cacheLatched == (old(cacheLatched) || rerun)
    {
      rerun := false;
      if cacheLatched || !err.cache {
        return;
      }
      cacheLatched := true;
      rerun := true;
    }

    method NoteContextOverflow(err: Agent.Failure, sums: Summaries) returns (rerun: bool)
      modifies this
      ensures (View(), rerun) == Agent.NoteOverflow(cfg, old(View()), err, sums)
    {
      rerun := false;
      if ctxOverflows >= Agent.MAX_CONTEXT_OVERFLOW_RETRIES || !err.overflow || turnFrameEmitted {
        return;
      }
      var measured := MeasuredContext();
      if measured == 0 {
        return;
      }
      var eff := measured / 2;
      if eff < Agent.MIN_CONTEXT_OVERFLOW_WINDOW {
        eff := Agent.MIN_CONTEXT_OVERFLOW_WINDOW;
      }
      var prev := EffectiveContextWindow();
      if eff >= prev {
        eff := prev / 2;
        if eff < Agent.MIN_CONTEXT_OVERFLOW_WINDOW {
          eff := Agent.MIN_CONTEXT_OVERFLOW_WINDOW;
        }
      }
      assert eff == Agent.LoweredWindow(measured, prev);
      ctxOverflowWindow := eff;
      rerun := CompactForRecovery(sums);
    }

    method CompactForRecovery(sums: Summaries) returns (rerun: bool)
      modifies this
      ensures (View(), rerun) == Agent.Recover(cfg, old(View()), sums)
    {
      var window := EffectiveContextWindow();
      var r := CompactHistory(history, window, sums);
      rerun := TakeRecovery(r);
    }

    method TakeRecovery(r: CompactResult) returns (rerun: bool)
      modifies this
      ensures (View(), rerun) == Agent.Recovered(old(View()), r)
    {
      rerun := false;
      if r.Compacted? {
        ctxOverflows := ctxOverflows + 1;
        history := r.messages;
        contextTokens := EstimateTokens(r.messages);
        rerun := true;
      }
    }

    method RerunWithoutEffort(first: Agent.Reply, out: Agent.StreamOutcome) returns (reply: Agent.Reply)
      modifies this
      ensures (View(), reply) == Agent.AfterEffort(cfg, old(View()), first, out)
    {
      reply := first;
      if reply.err.Some? {
        var rerun := NoteEffortRejection(reply.err.value);
        if rerun {
          reply := Stream(Agent.EffortRerun, history, out);
        }
      }
    }

    method RerunWithoutCache(first: Agent.Reply, out: Agent.StreamOutcome) returns (reply: Agent.Reply)
      modifies this
      ensures (View(), reply) == Agent.AfterCache(cfg, old(View()), first, out)
    {
      reply := first;
      if reply.err.Some? {
        var rerun := NoteCacheRejection(reply.err.value);
        if rerun {
          reply := Stream(Agent.CacheRerun, history, out);
        }
      }
    }

    method RerunCompacted(first: Agent.Reply, sums: Summaries, out: Agent.StreamOutcome) returns (reply: Agent.Reply)
      modifies this
      ensures (View(), reply) == Agent.AfterOverflow(cfg, old(View()), first, sums, out)
    {
      reply := first;
      if reply.err.Some? {
        var rerun := NoteContextOverflow(reply.err.value, sums);
        if rerun {
          reply := Stream(Agent.OverflowRerun, history, out);
        }
      }
    }

    method Converse(i: Agent.TurnInput) returns (reply: Agent.Reply)
      modifies this
      ensures (View(), reply) == Agent.Converse(cfg, old(View()), i)
    {
      var messages := RequestMessages();
      reply := Stream(Agent.TurnCall, messages, i.first);
      reply := RerunWithoutEffort(reply, i.afterEffort);
      reply := RerunWithoutCache(reply, i.afterCache);
      reply := RerunCompacted(reply, i.recovery, i.afterOverflow);
    }

    method WrapUp(guard: Agent.Guard, i: Agent.TurnInput)
      modifies this
      ensures View() == Agent.WrapUp(cfg, old(View()), guard, i)
    {
      if i.wrapUpCancelled {
        return;
      }
      var messages := RequestMessages();
      messages := messages + [Agent.WrapUpMessage(guard)];
      var _ := Stream(Agent.WrapUpCall(guard), messages, i.wrapUp);
    }

    // ----- Tools -----

    static method CollectToolUses(blocks: seq<Block>) returns (uses: seq<Block>)
      ensures uses == Agent.ToolUses(blocks)
    {
      uses := [];
      for i := 0 to |blocks|
        invariant uses + Agent.ToolUses(blocks[i..]) == Agent.ToolUses(blocks)
      {
        assert blocks[i..][1..] == blocks[i + 1..];
        if blocks[i].typ == ToolUse {
          uses := uses + [blocks[i]];
        }
      }
    }

    static method ToolCallSignature(uses: seq<Block>) returns (sig: string)
      ensures sig == Agent.Signature(uses)
    {
      sig := "";
      for i := 0 to |uses|
        invariant sig + Agent.Signature(uses[i..]) == Agent.Signature(uses)
      {
        assert uses[i..][1..] == uses[i + 1..];
        sig := sig + uses[i].name;
        sig := sig + [Agent.UNIT_SEPARATOR];
        sig := sig + uses[i].input;
        sig := sig + [Agent.RECORD_SEPARATOR];
      }
    }

    static method FailTruncatedToolUses(uses: seq<Block>) returns (results: seq<Block>, records: seq<Record>)
      ensures results == Agent.TruncatedBlocks(uses) && records == Agent.TruncatedRecords(uses)
    {
      results, records := [], [];
      for i := 0 to |uses|
        invariant results == Agent.TruncatedBlocks(uses)[..i] && records == Agent.TruncatedRecords(uses)[..i]
      {
        results := results + [Block(ToolResult, useId := uses[i].id, content := Str(Agent.TRUNCATED_RESULT), isError := true)];
        records := records + [RecordOf(uses[i], ToolOutcome(Str(Agent.TRUNCATED_RECORD), true))];
      }
    }

    /** The calls from `ran` on are refused at launch; the others' goroutines write their own slots of the shared
        slices in whatever order they finish. */
    static method ExecuteParallelBatch(batch: seq<Block>, outs: nat -> ToolOutcome, first: nat, ran: nat)
      returns (blocks: seq<Block>, records: seq<Option<Record>>)
      ensures |blocks| == |records| == |batch|
      ensures forall k :: 0 <= k < |batch| ==> blocks[k] == SlotValue(batch[k], outs, first + k, ran)
      ensures forall k :: 0 <= k < |batch| ==> records[k] == SlotEntry(batch[k], outs, first + k, ran)
      ensures forall k :: 0 <= k < |batch| && first + k < ran ==>
        Carries(blocks[k], batch[k], outs(first + k).content, outs(first + k).isError)
      ensures forall k :: 0 <= k < |batch| && first + k >= ran ==>
        Carries(blocks[k], batch[k], Str(CANCELLED), true)
    {
      var shared := new Block[|batch|](_ => Block(Untyped));
      var entries := new Option<Record>[|batch|](_ => None);
      var flying: set<nat> := {};
      for k := 0 to |batch|
        invariant forall j :: j in flying <==> 0 <= j < k && first + j < ran
        invariant forall j :: 0 <= j < k && first + j >= ran ==> shared[j] == CancelledBlock(batch[j])
        invariant forall j :: 0 <= j < |batch| ==> entries[j] == None
      {
        if first + k >= ran {
          shared[k] := CancelledBlock(batch[k]);
        } else {
          flying := flying + {k};
        }
      }
      Land(batch, outs, first, ran, flying, shared, entries);
      blocks, records := shared[..], entries[..];
    }

    static method Land(batch: seq<Block>, outs: nat -> ToolOutcome, first: nat, ran: nat, launched: set<nat>,
                       blocks: array<Block>, records: array<Option<Record>>)
      requires blocks.Length == records.Length == |batch|
      requires forall j :: j in launched ==> j < |batch| && first + j < ran
      requires forall j :: 0 <= j < |batch| && j !in launched ==> blocks[j] == SlotValue(batch[j], outs, first + j, ran)
      requires forall j :: 0 <= j < |batch| && j !in launched ==> records[j] == SlotEntry(batch[j], outs, first + j, ran)
      modifies blocks, records
      ensures forall j :: 0 <= j < |batch| ==> blocks[j] == SlotValue(batch[j], outs, first + j, ran)
      ensures forall j :: 0 <= j < |batch| ==> records[j] == SlotEntry(batch[j], outs, first + j, ran)
    {
      var flying := launched;
      while flying != {}
        invariant flying <= launched
        invariant forall j :: 0 <= j < |batch| && j !in flying ==> blocks[j] == SlotValue(batch[j], outs, first + j, ran)
        invariant forall j :: 0 <= j < |batch| && j !in flying ==> records[j] == SlotEntry(batch[j], outs, first + j, ran)
        decreases |flying|
      {
        var k :| k in flying;
        blocks[k] := ResultBlock(batch[k], outs(first + k));
        records[k] := Some(RecordOf(batch[k], outs(first + k)));
        flying := flying - {k};
      }
    }

    static function SlotValue(call: Block, outs: nat -> ToolOutcome, k: nat, ran: nat): Block {
      if k < ran then ResultBlock(call, outs(k)) else CancelledBlock(call)
    }

    static function SlotEntry(call: Block, outs: nat -> ToolOutcome, k: nat, ran: nat): Option<Record> {
      if k < ran then Some(RecordOf(call, outs(k))) else None
    }

    /** Segment by segment: a maximal stretch of parallelizable calls as one batch, any other call alone. */
    method ExecuteTools(uses: seq<Block>, outs: nat -> ToolOutcome, ran: nat) returns (results: seq<Block>)
      requires ran <= |uses|
      modifies this`toolCalls
      ensures results == SequentialBlocks(uses, outs, ran) && Delivered(results, uses, outs, ran)
      ensures toolCalls == old(toolCalls) + SequentialRecords(uses, outs, ran)
      ensures Booked(toolCalls[|old(toolCalls)|..], uses, outs, ran)
    {
      SequentialDelivers(uses, outs, ran);
      results := [];
      var i := 0;
      while i < |uses|
        invariant 0 <= i <= |uses| && results == SequentialBlocks(uses, outs, ran)[..i]
        invariant toolCalls == old(toolCalls) + SequentialRecords(uses, outs, ran)[..if i < ran then i else ran]
      {
        if !parallelizable(uses[i].name) {
          if i < ran {
            Account(uses, outs, ran, i, Some(RecordOf(uses[i], outs(i))), old(toolCalls));
            results := results + [ResultBlock(uses[i], outs(i))];
          } else {
            results := results + [CancelledBlock(uses[i])];
          }
          i := i + 1;
          continue;
        }
        var j := i;
        while j < |uses| && parallelizable(uses[j].name)
          invariant i <= j <= |uses| && (j > i || parallelizable(uses[i].name))
        {
          j := j + 1;
        }
        var blocks := AccountBatch(uses, outs, ran, i, j, old(toolCalls));
        results := results + blocks;
        i := j;
      }
    }

    /** Runs uses[i..j] as one batch and books its records in call order once it has drained. */
    method AccountBatch(uses: seq<Block>, outs: nat -> ToolOutcome, ran: nat, i: nat, j: nat, ghost before: seq<Record>)
      returns (results: seq<Block>)
      requires ran <= |uses| && i <= j <= |uses|
      requires toolCalls == before + SequentialRecords(uses, outs, ran)[..if i < ran then i else ran]
      modifies this`toolCalls
      ensures results == SequentialBlocks(uses, outs, ran)[i..j]
      ensures toolCalls == before + SequentialRecords(uses, outs, ran)[..if j < ran then j else ran]
    {
      var blocks, records := ExecuteParallelBatch(uses[i..j], outs, i, ran);
      results := [];
      for k := 0 to j - i
        invariant results == SequentialBlocks(uses, outs, ran)[i..i + k]
        invariant toolCalls == before + SequentialRecords(uses, outs, ran)[..if i + k < ran then i + k else ran]
      {
        assert uses[i..j][k] == uses[i + k];
        Account(uses, outs, ran, i + k, records[k], before);
        results := results + [blocks[k]];
      }
    }

    method Account(uses: seq<Block>, outs: nat -> ToolOutcome, ran: nat, k: nat, entry: Option<Record>,
                   ghost before: seq<Record>)
      requires ran <= |uses| && k < |uses| && entry == SlotEntry(uses[k], outs, k, ran)
      requires toolCalls == before + SequentialRecords(uses, outs, ran)[..if k < ran then k else ran]
      modifies this`toolCalls
      ensures toolCalls == before + SequentialRecords(uses, outs, ran)[..if k + 1 < ran then k + 1 else ran]
    {
      if entry.Some? {
        toolCalls := toolCalls + [entry.value];
      }
    }

    method CountErrors(results: seq<Block>)
      modifies this`errStreak
      ensures errStreak == Agent.ErrorStreak(old(errStreak), results)
    {
      for i := 0 to |results|
        invariant Agent.ErrorStreak(errStreak, results[i..]) == Agent.ErrorStreak(old(errStreak), results)
      {
        assert results[i..][1..] == results[i + 1..];
        if results[i].isError {
          errStreak := errStreak + 1;
        } else {
          errStreak := 0;
        }
      }
    }

    // ----- Turns -----

    method Execute(uses: seq<Block>, i: Agent.TurnInput) returns (v: Agent.Verdict)
      modifies this
      ensures (View(), v) == Agent.Execute(cfg, old(View()), uses, i)
    {
      var results := ExecuteTools(uses, i.outs, if i.ran < |uses| then i.ran else |uses|);
      TakeResults(uses, results);
      if errStreak >= Agent.MAX_CONSECUTIVE_TOOL_ERRORS {
        WrapUp(Agent.RepeatedErrors, i);
        return Agent.Done(Agent.NoProgress(Agent.RepeatedErrors));
      }
      v := if i.resultsWriteFails then Agent.Done(Agent.WriteError) else Agent.Continue;
    }

    method TakeResults(uses: seq<Block>, results: seq<Block>)
      modifies this
      ensures View() == old(View()).(history := old(history) + [Message(USER, Blocks(results))],
        errStreak := Agent.ErrorStreak(old(errStreak), results),
        toolTurns := old(toolTurns) + [Agent.ToolTurn(Agent.Signature(uses), false, Agent.ErrorFlags(results))])
    {
      history := history + [Message(USER, Blocks(results))];
      CountErrors(results);
      toolTurns := toolTurns + [Agent.ToolTurn(Agent.Signature(uses), false, Agent.ErrorFlags(results))];
    }

    method RefillTruncated(uses: seq<Block>) returns (v: Agent.Verdict)
      modifies this
      ensures (View(), v) == Agent.RefillTruncated(old(View()), uses)
    {
      var results, records := FailTruncatedToolUses(uses);
      history := history + [Message(USER, Blocks(results))];
      toolCalls := toolCalls + records;
      truncStreak := truncStreak + 1;
      toolTurns := toolTurns + [Agent.ToolTurn(Agent.Signature(uses), true, [])];
      v := if truncStreak > Agent.MAX_TRUNCATION_RETRIES then Agent.Done(Agent.TooManyTruncations) else Agent.Continue;
    }

    method Remember(reply: Agent.Reply)
      modifies this
      ensures View() == Agent.Remember(old(View()), reply)
    {
      stopLast := reply.stop;
      history := history + [Message(ASSISTANT, Blocks(reply.blocks))];
      history := StubImages(history);
    }

    method NoteSignature(uses: seq<Block>)
      modifies this
      ensures View() == Agent.NoteSignature(old(View()), Agent.Signature(uses))
    {
      truncStreak := 0;
      var sig := ToolCallSignature(uses);
      if sig == lastToolSignature {
        dupStreak := dupStreak + 1;
      } else {
        lastToolSignature := sig;
        dupStreak := 1;
      }
    }

    method Settle(reply: Agent.Reply, i: Agent.TurnInput) returns (v: Agent.Verdict)
      modifies this
      ensures (View(), v) == Agent.Settle(cfg, old(View()), reply, i)
    {
      Remember(reply);
      var uses := CollectToolUses(reply.blocks);
      if |uses| == 0 {
        if |i.followUps| > 0 {
          history := history + i.followUps;
          return Agent.Continue;
        }
        return Agent.Done(Agent.Success);
      }
      if reply.stop == Agent.STOP_REASON_MAX_TOKENS {
        v := RefillTruncated(uses);
        return;
      }
      NoteSignature(uses);
      if dupStreak >= Agent.MaxIdentical(cfg) {
        WrapUp(Agent.DuplicateCalls, i);
        return Agent.Done(Agent.NoProgress(Agent.DuplicateCalls));
      }
      v := Execute(uses, i);
    }

    method Turn(i: Agent.TurnInput) returns (v: Agent.Verdict)
      modifies this
      ensures (View(), v) == Agent.Turn(cfg, old(View()), i)
    {
      if i.cancelled {
        return Agent.Done(Agent.Cancelled);
      }
      Open(i);
      var reply := Converse(i);
      v := Conclude(reply, i);
    }

    method Open(i: Agent.TurnInput)
      modifies this
      ensures View() == Agent.AutoCompact(cfg, Agent.Begin(old(View()), i), i.gate)
    {
      Begin(i);
      MaybeAutoCompact(i.gate);
    }

    method Begin(i: Agent.TurnInput)
      modifies this
      ensures View() == Agent.Begin(old(View()), i)
    {
      turns := turns + 1;
      history := history + i.steering;
    }

    method Conclude(reply: Agent.Reply, i: Agent.TurnInput) returns (v: Agent.Verdict)
      modifies this
      ensures (View(), v) == Agent.Conclude(cfg, old(View()), reply, i)
    {
      if reply.err.Some? {
        return Agent.Done(if i.cancelledMidway then Agent.Cancelled else Agent.RunError);
      }
      v := Settle(reply, i);
    }

    /** The main loop, over what the environment does turn by turn. */
    method Loop(ins: seq<Agent.TurnInput>) returns (v: Agent.Verdict)
      modifies this
      ensures (View(), v) == Agent.Run(cfg, old(View()), ins)
    {
      v := Agent.Continue;
      var n := 0;
      while n < |ins|
        invariant n <= |ins| && v.Continue?
        invariant Agent.Run(cfg, View(), ins[n..]) == Agent.Run(cfg, old(View()), ins)
        decreases |ins| - n
      {
        assert ins[n..][0] == ins[n] && ins[n..][1..] == ins[n + 1..];
        v := Turn(ins[n]);
        if v.Done? {
          return;
        }
        n := n + 1;
      }
    }
  }
}
