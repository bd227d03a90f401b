/** What the histories compacted in a run look like: nothing blank, so the bounds on the kept tail apply to them
    (app/agentcore/loop.go, app/agentcore/compact.go). */
module Conversation {
  import opened Text
  import opened Messages
  import opened Wrappers
  import opened Compaction
  import opened Cache
  import opened Media
  import opened ToolBatch
  import opened Agent
  import opened AgentProperties
  import opened AgentRuns

  /** The host hands in nothing blank. */
  predicate HostSpeaks(i: TurnInput) {
    (forall k :: 0 <= k < |i.steering| ==> TailBoundary(i.steering[k]))
    && (forall k :: 0 <= k < |i.followUps| ==> TailBoundary(i.followUps[k]))
  }

  predicate HostAlwaysSpeaks(ins: seq<TurnInput>) {
    forall k :: 0 <= k < |ins| ==> HostSpeaks(ins[k])
  }

  // ----- Compaction -----

  lemma {:induction false} TrimKeepsHead(s: string)
    requires s != "" && !IsSpace(s[0])
    ensures TrimRight(s) != ""
  {
    if IsSpace(s[|s| - 1]) {
      TrimKeepsHead(s[..|s| - 1]);
    }
  }

  lemma SummarySpeaks(summary: string)
    ensures TailBoundary(SummaryMessage(summary))
  {
    KnownRoles();
    var text := SUMMARY_HEADER + TrimSpace(summary);
    assert text[0] == SUMMARY_HEADER[0];
    TrimKeepsHead(text);
  }

  lemma CompactTalks(h: seq<Message>, window: int, sums: Summaries)
    requires Conversational(h) && Compact(h, window, sums).Compacted?
    ensures Conversational(Compact(h, window, sums).messages)
  {
    SplitIsLegal(h, Compaction.EffectiveWindow(window));
    SummarizedTalks(h, SplitIndex(h, Compaction.EffectiveWindow(window)), Summarize(sums));
  }

  lemma SummarizedTalks(h: seq<Message>, split: nat, summary: Option<string>)
    requires Conversational(h) && split <= |h| && Summarized(h, split, summary).Compacted?
    ensures Conversational(Summarized(h, split, summary).messages)
  {
    SummarySpeaks(summary.value);
  }

  lemma GateTalks(cfg: Config, s: State, sums: Summaries)
    requires Conversational(s.history)
    ensures Conversational(AutoCompact(cfg, s, sums).history)
  {
    var c := Compact(s.history, Window(cfg, s), sums);
    if c.Compacted? {
      CompactTalks(s.history, Window(cfg, s), sums);
    }
    GateTalksOf(s, CompactionDue(cfg, s), c);
  }

  lemma GateTalksOf(s: State, due: bool, c: CompactResult)
    requires Conversational(s.history) && (c.Compacted? ==> Conversational(c.messages))
    ensures Conversational(Gate(s, due, c).history)
  {
  }

  // ----- One turn -----

  lemma OverflowTalks(cfg: Config, s: State, r: Reply, sums: Summaries, out: StreamOutcome)
    requires Conversational(s.history)
    ensures Conversational(AfterOverflow(cfg, s, r, sums, out).0.history)
  {
    if r.err.Some? {
      var (t, recovered) := NoteOverflow(cfg, s, r.err.value, sums);
      if recovered {
        var low := s.(overflowWindow := LoweredWindow(Measured(s), Window(cfg, s)));
        CompactTalks(s.history, Window(cfg, low), sums);
        SendKeeps(cfg, t, OverflowRerun, t.history, out);
      }
    }
  }

  lemma ConverseTalks(cfg: Config, s: State, i: TurnInput)
    requires Conversational(s.history)
    ensures Conversational(Converse(cfg, s, i).0.history)
  {
    var (s1, r1) := Send(cfg, s, TurnCall, Breakpointed(s), i.first);
    SendKeeps(cfg, s, TurnCall, Breakpointed(s), i.first);
    var (s2, r2) := AfterEffort(cfg, s1, r1, i.afterEffort);
    SendKeeps(cfg, s1.(effortLatched := true), EffortRerun, s1.history, i.afterEffort);
    var (s3, r3) := AfterCache(cfg, s2, r2, i.afterCache);
    SendKeeps(cfg, s2.(cacheLatched := true), CacheRerun, s2.history, i.afterCache);
    OverflowTalks(cfg, s3, r3, i.recovery, i.afterOverflow);
  }

  lemma StubbedSpeaks(m: Message)
    requires Spoken(m)
    ensures Spoken(StubMessage(m))
  {
    if m.content.Blocks? {
      StubKeepsIds(m.content.blocks);
    }
  }

  lemma RememberTalks(s: State, r: Reply)
    requires Conversational(s.history)
    ensures Conversational(Remember(s, r).history)
  {
    KnownRoles();
    var h := s.history + [Message(ASSISTANT, Blocks(r.blocks))];
    assert Conversational(h);
    forall k | 0 <= k < |h| ensures Spoken(StubHistory(h)[k]) {
      StubbedSpeaks(h[k]);
    }
  }

  lemma AnswerSpeaks(results: seq<Block>, uses: seq<Block>)
    requires AnswersAll(results, uses) && uses != []
    ensures Spoken(Message(USER, Blocks(results)))
  {
    KnownRoles();
    AnswersAllIds(results, uses);
    assert |Ids(uses)| > 0;
  }

  lemma WrapUpKeepsHistory(cfg: Config, s: State, guard: Guard, i: TurnInput)
    ensures WrapUp(cfg, s, guard, i).history == s.history
  {
  }

  lemma ExecuteTalks(cfg: Config, s: State, uses: seq<Block>, i: TurnInput)
    requires Conversational(s.history) && uses != []
    ensures Conversational(Execute(cfg, s, uses, i).0.history)
  {
    var ran := if i.ran < |uses| then i.ran else |uses|;
    var results := SequentialBlocks(uses, i.outs, ran);
    SequentialAnswersAll(uses, i.outs, ran);
    AnswerSpeaks(results, uses);
    assert Conversational(s.history + [Message(USER, Blocks(results))]);
    assert Execute(cfg, s, uses, i).0.history == s.history + [Message(USER, Blocks(results))];
  }

  lemma RefillTalks(s: State, uses: seq<Block>)
    requires Conversational(s.history) && uses != []
    ensures Conversational(RefillTruncated(s, uses).0.history)
  {
    AnswerSpeaks(TruncatedBlocks(uses), uses);
  }

  lemma SettleTalks(cfg: Config, s: State, r: Reply, i: TurnInput)
    requires Conversational(s.history) && HostSpeaks(i)
    ensures Conversational(Settle(cfg, s, r, i).0.history)
  {
    var t, uses := Remember(s, r), ToolUses(r.blocks);
    RememberTalks(s, r);
    if uses == [] {
    } else if r.stop == STOP_REASON_MAX_TOKENS {
      RefillTalks(t, uses);
    } else {
      var n := NoteSignature(t, Signature(uses));
      WrapUpKeepsHistory(cfg, n, DuplicateCalls, i);
      ExecuteTalks(cfg, n, uses, i);
    }
  }

  lemma ConcludeTalks(cfg: Config, s: State, r: Reply, i: TurnInput)
    requires Conversational(s.history) && HostSpeaks(i)
    ensures Conversational(Conclude(cfg, s, r, i).0.history)
  {
    if r.err.None? {
      SettleTalks(cfg, s, r, i);
    }
  }

  lemma TurnTalks(cfg: Config, s: State, i: TurnInput)
    requires Conversational(s.history) && HostSpeaks(i)
    ensures Conversational(Turn(cfg, s, i).0.history)
  {
    if !i.cancelled {
      var b := Begin(s, i);
      GateTalks(cfg, b, i.gate);
      var g := AutoCompact(cfg, b, i.gate);
      ConverseTalks(cfg, g, i);
      var (t, r) := Converse(cfg, g, i);
      ConcludeTalks(cfg, t, r, i);
    }
  }

  // ----- All turns -----

  lemma StepTalks(cfg: Config, s: State, i: TurnInput, t: State)
    requires Conversational(s.history) && HostSpeaks(i) && TurnOf(cfg)(s, i) == (t, Continue)
    ensures Conversational(t.history)
  {
    TurnTalks(cfg, s, i);
  }

  /** From a conversation without blanks every loop head's history is one, if the host hands in nothing blank. */
  lemma {:induction false} HeadsTalk(cfg: Config, history: seq<Message>, heads: seq<State>, ins: seq<TurnInput>, k: nat)
    requires Conversational(history) && HostAlwaysSpeaks(ins)
    requires Heads(cfg, Agent.Start(history), heads, ins) && k <= |ins|
    ensures Conversational(heads[k].history)
  {
    if k > 0 {
      HeadsTalk(cfg, history, heads, ins, k - 1);
      StepTalks(cfg, heads[k - 1], ins[k - 1], heads[k]);
    }
  }

  /** What a split promises on a paired conversation. */
  predicate ShortTail(h: seq<Message>, window: nat) {
    var cut, k := GreedyCut(h, window), SplitIndex(h, window);
    && cut - 1 <= k <= cut
    && (k > 0 ==> (k < |h| && Tokens(h[k..]) <= Higher(window / TAIL_RATIO_DEN, MessageTokens(h[|h| - 1])) + MessageTokens(h[k])))
  }

  lemma ConversationSplits(h: seq<Message>, window: nat)
    requires Paired(h) && Conversational(h)
    ensures ShortTail(h, window)
  {
    SplitStepsBackAtMostOne(h, window);
    if SplitIndex(h, window) > 0 {
      ConversationTailCost(h, window);
    }
  }

  /** So in every run, whichever turn compacts, and whether at the gate or to recover from an overflow: the cut steps
      back at most one message, and the tail kept costs at most a quarter of the window, or the last message, plus one
      message. */
  lemma CompactionsKeepShortTails(cfg: Config, history: seq<Message>, heads: seq<State>, ins: seq<TurnInput>, k: nat, window: nat)
    requires Paired(history) && Unmarked(history) && Conversational(history) && HostInputs(ins) && HostAlwaysSpeaks(ins)
    requires Heads(cfg, Agent.Start(history), heads, ins) && k < |ins|
    ensures ShortTail(Begin(heads[k], ins[k]).history, window)
    ensures ShortTail(AutoCompact(cfg, Begin(heads[k], ins[k]), ins[k].gate).history, window)
  {
    var i := ins[k];
    HeadsKept(cfg, history, heads, ins, k);
    HeadsTalk(cfg, history, heads, ins, k);
    CompactedHistories(cfg, heads[k], i, window);
  }

  lemma CompactedHistories(cfg: Config, s: State, i: TurnInput, window: nat)
    requires GoodHistory(s.history) && Conversational(s.history) && HostInput(i) && HostSpeaks(i)
    ensures ShortTail(Begin(s, i).history, window)
    ensures ShortTail(AutoCompact(cfg, Begin(s, i), i.gate).history, window)
  {
    var b := Begin(s, i);
    GoodAppend(s.history, i.steering);
    ConversationSplits(b.history, window);
    var c := Compact(b.history, Window(cfg, b), i.gate);
    if c.Compacted? {
      GoodCompact(b.history, Window(cfg, b), i.gate);
    }
    GateKeepsHistory(b, CompactionDue(cfg, b), c);
    GateTalks(cfg, b, i.gate);
    ConversationSplits(AutoCompact(cfg, b, i.gate).history, window);
  }

  // ----- What was just steered in -----

  predicate EndsWith(h: seq<Message>, latest: seq<Message>) {
    |latest| <= |h| && h[|h| - |latest|..] == latest
  }

  /** The gate leaves the messages steered in just before it verbatim at the end of the history if there is one at most
      or they fit the tail; if it compacts and they do not, fewer messages are left than were steered in, the summary
      included. */
  lemma SteeringKeptIff(cfg: Config, s: State, i: TurnInput)
    requires HostSpeaks(i)
    ensures var b := Begin(s, i);
      var t := AutoCompact(cfg, b, i.gate);
      && (FitsTail(i.steering, Window(cfg, b)) ==> EndsWith(t.history, i.steering))
      && (t.autoCompacts > b.autoCompacts && !FitsTail(i.steering, Window(cfg, b)) ==> |t.history| <= |i.steering|)
  {
    LatestKeptIff(cfg, Begin(s, i), s.history, i.steering, i.gate);
  }

  /** The gate keeps the latest messages, whoever put them there, under the same condition. */
  lemma LatestKeptIff(cfg: Config, b: State, h: seq<Message>, latest: seq<Message>, sums: Summaries)
    requires b.history == h + latest && forall k :: 0 <= k < |latest| ==> TailBoundary(latest[k])
    ensures var t := AutoCompact(cfg, b, sums);
      && (FitsTail(latest, Window(cfg, b)) ==> EndsWith(t.history, latest))
      && (t.autoCompacts > b.autoCompacts && !FitsTail(latest, Window(cfg, b)) ==> |t.history| <= |latest|)
  {
    var w := Window(cfg, b);
    var c := Compact(b.history, w, sums);
    if c.Compacted? {
      LatestSurviveIff(h, latest, w, sums);
      CompactedEnds(h, latest, w, sums);
    }
    GateEnds(b, CompactionDue(cfg, b), c, latest, FitsTail(latest, w));
  }

  lemma CompactedEnds(h: seq<Message>, latest: seq<Message>, window: int, sums: Summaries)
    requires Compact(h + latest, window, sums).Compacted?
    ensures var r := Compact(h + latest, window, sums);
      if r.removed <= |h| then EndsWith(r.messages, latest) else |r.messages| <= |latest|
  {
    var w := Compaction.EffectiveWindow(window);
    SplitIsLegal(h + latest, w);
    SummarizedEnds(h, latest, SplitIndex(h + latest, w), Summarize(sums));
  }

  lemma SummarizedEnds(h: seq<Message>, latest: seq<Message>, split: nat, summary: Option<string>)
    requires split < |h + latest| && Summarized(h + latest, split, summary).Compacted?
    ensures var r := Summarized(h + latest, split, summary);
      r.removed == split && if split <= |h| then EndsWith(r.messages, latest) else |r.messages| <= |latest|
  {
    if split <= |h| {
      assert (h + latest)[split..] == h[split..] + latest;
    }
  }

  lemma GateEnds(b: State, due: bool, c: CompactResult, latest: seq<Message>, fits: bool)
    requires EndsWith(b.history, latest)
    requires c.Compacted? ==> if fits then EndsWith(c.messages, latest) else |c.messages| <= |latest|
    ensures var t := Gate(b, due, c);
      && (fits ==> EndsWith(t.history, latest))
      && (t.autoCompacts > b.autoCompacts && !fits ==> |t.history| <= |latest|)
  {
  }

  /** Something is left to summarize whenever the last line is affordable. */
  lemma AffordableLineIsShown(ls: seq<string>, budget: nat)
    requires ls != [] && TextTokens(ls[|ls| - 1]) <= budget
    requires forall k :: 0 <= k < |ls| ==> ls[k] != "" && !IsSpace(ls[k][0])
    ensures TrimSpace(Paragraphs(ls[KeepFrom(ls, budget, |ls|)..])) != ""
  {
    var n := |ls|;
    assert ls[n..] == [] && ls[n - 1..][1..] == [] && LinesTokens(ls[n - 1..]) == TextTokens(ls[n - 1]) + 0;
    var kept := ls[KeepFrom(ls, budget, n)..];
    assert kept != [] && Paragraphs(kept)[0] == kept[0][0];
    TrimKeepsHead(Paragraphs(kept));
  }

  /** One user message, then two more steered in together. */
  function Opening(): seq<Message> {
    [Message(USER, Str("x"))]
  }

  function Steered(): seq<Message> {
    [Message(USER, Str("z")), Message(USER, Str("z"))]
  }

  lemma ShortLine(text: string)
    requires text == "x" || text == "z"
    ensures RenderMessage(Message(USER, Str(text))) == "用户: " + text
  {
    KnownRoles();
    assert TrimSpace(text) == text && Utf8Size(text) == 1;
  }

  lemma OpeningLines()
    ensures Lines([Message(USER, Str("x")), Message(USER, Str("z"))]) == ["用户: x", "用户: z"]
  {
    ShortLine("x");
    ShortLine("z");
    TwoLines(Message(USER, Str("x")), Message(USER, Str("z")), "用户: x", "用户: z");
  }

  lemma TwoLines(m: Message, n: Message, x: string, z: string)
    requires RenderMessage(m) == x != "" && RenderMessage(n) == z != ""
    ensures Lines([m, n]) == [x, z]
  {
    LinesAreNonEmpty([m, n], [x, z]);
    TwoNonEmpty(x, z);
  }

  lemma TwoNonEmpty(x: string, z: string)
    requires x != "" && z != ""
    ensures NonEmpty([x, z]) == [x, z]
  {
    assert [x, z][1..] == [z] && [z][1..] == [];
    assert NonEmpty([z]) == [z] + NonEmpty([]);
  }

  lemma OpeningTranscript(budget: nat)
    requires budget >= 12
    ensures Transcript([Message(USER, Str("x")), Message(USER, Str("z"))], budget) != ""
  {
    OpeningLines();
    TokensOfOneKind("用户: z");
    LinesAreShown([Message(USER, Str("x")), Message(USER, Str("z"))], budget, ["用户: x", "用户: z"]);
  }

  lemma LinesAreShown(ms: seq<Message>, budget: nat, ls: seq<string>)
    requires budget > 0 && Lines(ms) == ls != [] && TextTokens(ls[|ls| - 1]) <= budget
    requires forall k :: 0 <= k < |ls| ==> ls[k] != "" && !IsSpace(ls[k][0])
    ensures Transcript(ms, budget) != ""
  {
    AffordableLineIsShown(ls, budget);
  }

  lemma SteeredTokens()
    ensures Tokens(Steered()) == 12 && Tokens(Opening() + Steered()) == 18
  {
    var ms, steered := Opening() + Steered(), Steered();
    ShortMessage(USER, "z");
    ShortMessage(USER, "x");
    assert steered[1..][1..] == [] && Tokens(steered) == 12;
    assert ms[1..] == steered;
  }

  lemma SteeringCut(window: nat)
    requires 24 <= window < 28
    ensures SplitIndex(Opening() + Steered(), window) == 2
  {
    var ms, steered := Opening() + Steered(), Steered();
    SteeredTokens();
    assert ms[1..] == steered;
    assert TailFits(ms, 6, 2) && !TailFits(ms, 6, 1);
    assert TailStart(ms, 6, 2) == 2 && TailStart(ms, 6, 3) == TailStart(ms, 6, 2);
    assert GreedyCut(ms, window) == 2;
    KnownRoles();
    assert TrimSpace("z") == "z" && TailBoundary(ms[2]);
  }

  lemma SplitDecides(ms: seq<Message>, window: nat, split: nat, text: string)
    requires window > 0 && split == SplitIndex(ms, window) && 0 < split <= |ms|
    requires Transcript(ms[..split], window / TRANSCRIPT_RATIO_DEN) != "" && TrimSpace(text) != ""
    ensures Compact(ms, window, Summaries(Summary(text), Broken)) == Compacted([SummaryMessage(text)] + ms[split..], split)
  {
  }

  lemma OpeningCompacts(window: nat)
    requires 24 <= window < 28
    ensures Compact(Opening() + Steered(), window, Summaries(Summary("s"), Broken))
         == Compacted([SummaryMessage("s"), Steered()[1]], 2)
  {
    var ms := Opening() + Steered();
    SteeringCut(window);
    OpeningTranscript(window / TRANSCRIPT_RATIO_DEN);
    assert ms[..2] == [Message(USER, Str("x")), Message(USER, Str("z"))];
    assert TrimSpace("s") == "s";
    SplitDecides(ms, window, 2, "s");
    assert [SummaryMessage("s")] + ms[2..] == [SummaryMessage("s"), Steered()[1]];
  }

  /** An upstream failure that blames nothing in particular. */
  const UNEXPLAINED := Failure(false, false, false)

  lemma CompactingGate(cfg: Config, b: State, sums: Summaries)
    requires cfg.window == 24 && b.history == Opening() + Steered() && sums == Summaries(Summary("s"), Broken)
    requires b.failures == 0 && b.cooldown == 0 && b.overflowWindow == 0
    ensures var g := AutoCompact(cfg, b, sums);
      g.history == [SummaryMessage("s"), Steered()[1]] && g.calls == b.calls && g.cacheLatched == b.cacheLatched
  {
    SteeredTokens();
    assert Window(cfg, b) == 24 && CompactionDue(cfg, b);
    OpeningCompacts(24);
  }

  lemma FailedTurn(cfg: Config, g: State, i: TurnInput)
    requires i.first == StreamOutcome([], Some(UNEXPLAINED))
    ensures var (t, r) := Converse(cfg, g, i);
      r.err.Some? && t.calls == g.calls + [Call(TurnCall, Breakpointed(g), g.cacheLatched)]
  {
    SendKeeps(cfg, g, TurnCall, Breakpointed(g), i.first);
  }

  /** In a small window two messages steered in together do not fit the tail: the first is folded into the summary,
      and the turn's request shows only the second. */
  lemma SteeringIsFolded(cfg: Config, i: TurnInput)
    requires cfg.window == 24 && !i.cancelled && i.steering == Steered()
    requires i.gate == Summaries(Summary("s"), Broken) && i.first == StreamOutcome([], Some(UNEXPLAINED))
    ensures !FitsTail(Steered(), 24)
    ensures Turn(cfg, Agent.Start(Opening()), i).0.calls
         == [Call(TurnCall, MarkMessages([SummaryMessage("s"), Steered()[1]]), false)]
  {
    SteeredTokens();
    var b := Begin(Agent.Start(Opening()), i);
    CompactingGate(cfg, b, i.gate);
    FailedTurn(cfg, AutoCompact(cfg, b, i.gate), i);
  }
}
