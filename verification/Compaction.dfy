/** Context compaction: where the history is cut, what the summary request shows, what replaces the prefix
    (app/agentcore/compact.go). */
module Compaction {
  import opened Text
  import opened Messages
  import opened Wrappers

  const DEFAULT_CONTEXT_WINDOW: nat := 200_000
  const TAIL_RATIO_DEN: nat := 4
  const TRANSCRIPT_RATIO_DEN: nat := 2
  const RENDER_ENTRY_MAX_CHARS: nat := 8000
  const SUMMARY_HEADER := "以下是本会话此前内容的压缩摘要（由系统自动生成，用于延续对话）：\n\n"

  // ----- Where to cut -----

  /** Whether a message may open the part kept verbatim. */
  predicate TailBoundary(m: Message) {
    if IsAssistant(m) then true
    else if !IsUser(m) then false
    else match m.content
      case Nil => false
      case Str(s) => TrimSpace(s) != ""
      case Blocks(bs) => ResultIds(bs) == []
      case Raw(_) => true
  }

  /** The last message always fits; a longer tail fits while its cost is within the budget. */
  predicate TailFits(ms: seq<Message>, budget: nat, i: nat)
    requires i <= |ms|
  {
    i + 1 >= |ms| || Tokens(ms[i..]) <= budget
  }

  /** The longest fitting tail, growing backwards from i. */
  function TailStart(ms: seq<Message>, budget: nat, i: nat): (cut: nat)
    requires i <= |ms|
    ensures cut <= i
  {
    if i > 0 && TailFits(ms, budget, i - 1) then TailStart(ms, budget, i - 1) else i
  }

  lemma {:induction false} TailStartIsLongest(ms: seq<Message>, budget: nat, i: nat)
    requires i <= |ms| && TailFits(ms, budget, i)
    ensures var cut := TailStart(ms, budget, i);
      TailFits(ms, budget, cut) && (cut > 0 ==> !TailFits(ms, budget, cut - 1))
  {
    if i > 0 && TailFits(ms, budget, i - 1) {
      TailStartIsLongest(ms, budget, i - 1);
    }
  }

  /** The nearest boundary at or before i, never message 0. */
  function LastBoundary(ms: seq<Message>, i: nat): (j: nat)
    requires i == 0 || i < |ms|
    ensures j <= i && (j > 0 ==> TailBoundary(ms[j]))
  {
    if i == 0 then 0
    else if TailBoundary(ms[i]) then i
    else LastBoundary(ms, i - 1)
  }

  lemma {:induction false} LastBoundaryIsNearest(ms: seq<Message>, i: nat, k: nat)
    requires i < |ms| && LastBoundary(ms, i) < k <= i
    ensures !TailBoundary(ms[k])
  {
    if k < i {
      LastBoundaryIsNearest(ms, i - 1, k);
    }
  }

  function GreedyCut(ms: seq<Message>, window: nat): (cut: nat)
    ensures cut == 0 || cut < |ms|
  {
    assert ms != [] ==> TailFits(ms, window / TAIL_RATIO_DEN, |ms| - 1);
    TailStart(ms, window / TAIL_RATIO_DEN, |ms|)
  }

  function SplitIndex(ms: seq<Message>, window: nat): nat {
    LastBoundary(ms, GreedyCut(ms, window))
  }

  method CompactSplitIndex(ms: seq<Message>, window: nat) returns (split: nat)
    ensures split == SplitIndex(ms, window)
  {
    var tailBudget := window / TAIL_RATIO_DEN;
    var used := 0;
    var i := |ms|;
    while i > 0
      invariant 0 <= i <= |ms| && used == Tokens(ms[i..]) && (used > 0 <==> i < |ms|)
      invariant TailStart(ms, tailBudget, i) == TailStart(ms, tailBudget, |ms|)
    {
      var t := MessageTokens(ms[i - 1]);
      assert ms[i - 1..][1..] == ms[i..];
      if used + t > tailBudget && used > 0 {
        break;
      }
      used := used + t;
      i := i - 1;
    }
    assert i == GreedyCut(ms, window);
    if i <= 0 {
      return 0;
    }
    if !TailBoundary(ms[i]) {
      i := StepBackToBoundary(ms, i);
    }
    split := i;
  }

  method StepBackToBoundary(ms: seq<Message>, i: nat) returns (j: nat)
    requires 0 < i < |ms| && !TailBoundary(ms[i])
    ensures j == LastBoundary(ms, i)
  {
    j := i - 1;
    while j > 0 && !TailBoundary(ms[j])
      invariant 0 <= j < i
      invariant LastBoundary(ms, j) == LastBoundary(ms, i)
    {
      j := j - 1;
    }
  }

  /** The cut is none at all, or strictly inside the history at a message that may open the tail. */
  lemma SplitIsLegal(ms: seq<Message>, window: nat)
    ensures var k := SplitIndex(ms, window); k == 0 || (k < |ms| && TailBoundary(ms[k]))
  {
  }

  /** From the greedy cut back to the split only messages that may not open the tail are passed over. */
  lemma SplitStepsBack(ms: seq<Message>, window: nat)
    ensures var cut, k := GreedyCut(ms, window), SplitIndex(ms, window);
      && k <= cut && (k > 0 ==> TailBoundary(ms[k]))
      && forall i :: k < i <= cut ==> i < |ms| && !TailBoundary(ms[i])
  {
    var cut, k := GreedyCut(ms, window), SplitIndex(ms, window);
    forall i | k < i <= cut ensures i < |ms| && !TailBoundary(ms[i]) {
      LastBoundaryIsNearest(ms, cut, i);
    }
  }

  /** The cut moves back by more than one message exactly when it and the message before it may not open the tail. */
  lemma StepsBackAtMostOneIff(ms: seq<Message>, window: nat)
    requires GreedyCut(ms, window) > 0
    ensures var cut := GreedyCut(ms, window);
      SplitIndex(ms, window) >= cut - 1 <==> cut == 1 || TailBoundary(ms[cut]) || TailBoundary(ms[cut - 1])
  {
    var cut := GreedyCut(ms, window);
    assert !TailBoundary(ms[cut]) ==> LastBoundary(ms, cut) == LastBoundary(ms, cut - 1);
    assert cut > 1 && !TailBoundary(ms[cut - 1]) ==> LastBoundary(ms, cut - 1) == LastBoundary(ms, cut - 2);
  }

  function Higher(a: nat, b: nat): nat {
    if a > b then a else b
  }

  lemma GreedyTailCost(ms: seq<Message>, window: nat)
    requires GreedyCut(ms, window) > 0
    ensures var cut, budget := GreedyCut(ms, window), window / TAIL_RATIO_DEN;
      && Tokens(ms[cut..]) <= Higher(budget, MessageTokens(ms[|ms| - 1]))
      && Tokens(ms[cut - 1..]) > budget
  {
    var cut, budget := GreedyCut(ms, window), window / TAIL_RATIO_DEN;
    TailStartIsLongest(ms, budget, |ms|);
    if cut + 1 == |ms| {
      assert ms[cut..] == [ms[|ms| - 1]];
      assert Tokens([ms[|ms| - 1]]) == MessageTokens(ms[|ms| - 1]);
    }
  }

  lemma SplitWithinCut(ms: seq<Message>, window: nat)
    requires SplitIndex(ms, window) > 0
    ensures SplitIndex(ms, window) <= GreedyCut(ms, window) < |ms|
  {
    SplitStepsBack(ms, window);
  }

  /** The tail kept costs at most the budget (or the last message alone) plus the messages stepped back over, and one
      message more would already have been over budget. */
  lemma SplitTailCost(ms: seq<Message>, window: nat)
    requires SplitIndex(ms, window) > 0
    ensures var cut, k, budget := GreedyCut(ms, window), SplitIndex(ms, window), window / TAIL_RATIO_DEN;
      && k <= cut < |ms|
      && Tokens(ms[k..]) <= Higher(budget, MessageTokens(ms[|ms| - 1])) + Tokens(ms[k..cut])
      && Tokens(ms[k - 1..]) > budget
  {
    var cut, k := GreedyCut(ms, window), SplitIndex(ms, window);
    SplitWithinCut(ms, window);
    GreedyTailCost(ms, window);
    PassedOverCost(ms, k, cut);
  }

  lemma PassedOverCost(ms: seq<Message>, k: nat, cut: nat)
    requires 0 < k <= cut <= |ms|
    ensures Tokens(ms[k..]) == Tokens(ms[k..cut]) + Tokens(ms[cut..]) && Tokens(ms[k - 1..]) >= Tokens(ms[cut - 1..])
  {
    assert ms[k..] == ms[k..cut] + ms[cut..];
    TokensAppend(ms[k..cut], ms[cut..]);
    TokensSuffixLe(ms, k - 1, cut - 1);
  }

  /** A message of a running conversation: nothing blank, no third role, so only answers to tools are no boundary. */
  predicate Spoken(m: Message) {
    TailBoundary(m) || (IsUser(m) && Results(m) != [])
  }

  predicate Conversational(ms: seq<Message>) {
    forall i :: 0 <= i < |ms| ==> Spoken(ms[i])
  }

  /** In a paired history the cut stays, or steps back one message onto the request being answered, exactly when the
      message there is neither blank nor of a third role. */
  lemma SplitStepsBackAtMostOne(ms: seq<Message>, window: nat)
    requires Paired(ms)
    ensures var cut, k := GreedyCut(ms, window), SplitIndex(ms, window);
      k == cut || (k == cut - 1 && Results(ms[cut]) != [] && Uses(ms[k]) == Results(ms[cut]))
      <==> cut == 0 || Spoken(ms[cut])
  {
    var cut := GreedyCut(ms, window);
    assert cut > 0 ==> Asked(ms, cut);
    if cut > 0 && !TailBoundary(ms[cut]) && Spoken(ms[cut]) {
      assert TailBoundary(ms[cut - 1]);
      assert LastBoundary(ms, cut) == LastBoundary(ms, cut - 1) == cut - 1;
    }
  }

  /** With such a message at the cut the tail costs at most the budget, or the last message, plus the one message at the split. */
  lemma ConversationTailCost(ms: seq<Message>, window: nat)
    requires Paired(ms) && SplitIndex(ms, window) > 0 && Spoken(ms[GreedyCut(ms, window)])
    ensures var k := SplitIndex(ms, window);
      && k < |ms|
      && Tokens(ms[k..]) <= Higher(window / TAIL_RATIO_DEN, MessageTokens(ms[|ms| - 1])) + MessageTokens(ms[k])
  {
    var cut, k := GreedyCut(ms, window), SplitIndex(ms, window);
    SplitTailCost(ms, window);
    SplitStepsBackAtMostOne(ms, window);
    if k < cut {
      assert ms[k..cut] == [ms[k]];
      assert Tokens([ms[k]]) == MessageTokens(ms[k]) + Tokens([ms[k]][1..]);
    }
  }

  function BlankTalk(): seq<Message> {
    [Message(USER, Str("x")), Message(ASSISTANT, Str("y")), Message(USER, Str(" ")), Message(USER, Str(" ")), Message(USER, Str("z"))]
  }

  lemma BlankTalkTails()
    ensures var ms := BlankTalk(); Tokens(ms[4..]) == 6 && Tokens(ms[3..]) == 12 && Tokens(ms[2..]) == 18
  {
    var ms := BlankTalk();
    ShortMessage(USER, " ");
    ShortMessage(USER, "z");
    assert ms[4..][1..] == [] && ms[3..][1..] == ms[4..] && ms[2..][1..] == ms[3..];
  }

  lemma BlankTalkCut()
    ensures GreedyCut(BlankTalk(), 48) == 3
  {
    var ms := BlankTalk();
    BlankTalkTails();
    assert TailFits(ms, 12, 4) && TailFits(ms, 12, 3) && !TailFits(ms, 12, 2);
    assert TailStart(ms, 12, 3) == 3;
    assert TailStart(ms, 12, 4) == TailStart(ms, 12, 3);
    assert TailStart(ms, 12, 5) == TailStart(ms, 12, 4);
  }

  lemma BlankTalkBoundaries()
    ensures var ms := BlankTalk(); TailBoundary(ms[1]) && !TailBoundary(ms[2]) && !TailBoundary(ms[3])
  {
    KnownRoles();
    assert TrimSpace(" ") == "";
  }

  lemma BlankTalkPaired()
    ensures Paired(BlankTalk())
  {
    KnownRoles();
  }

  lemma BlankTalkSplit()
    ensures LastBoundary(BlankTalk(), 3) == 1
  {
    BlankTalkBoundaries();
    NextBoundary(BlankTalk(), 3);
    NextBoundary(BlankTalk(), 2);
    NextBoundary(BlankTalk(), 1);
  }

  lemma NextBoundary(ms: seq<Message>, i: nat)
    requires 0 < i < |ms|
    ensures LastBoundary(ms, i) == if TailBoundary(ms[i]) then i else LastBoundary(ms, i - 1)
  {
  }

  /** Blank messages from the user may not open the tail, so behind two of them the cut moves back by two. */
  lemma BlankMessagesStepFurther()
    ensures Paired(BlankTalk()) && GreedyCut(BlankTalk(), 48) == 3 && SplitIndex(BlankTalk(), 48) == 1
  {
    BlankTalkPaired();
    BlankTalkCut();
    BlankTalkSplit();
  }

  lemma ShortMessage(role: string, text: string)
    requires role == USER && (text == " " || text == "x" || text == "z")
    ensures MessageTokens(Message(role, Str(text))) == 6
  {
    assert Wide(text) == IsWide(text[0]) + Wide(text[1..]) == 0;
    assert Wide("user") == Wide("ser") == Wide("er") == Wide("r") == 0;
  }

  // ----- What the summary request shows -----

  function Utf8Size(s: string): nat {
    if s == "" then 0
    else (if s[0] < '\U{80}' then 1 else if s[0] < '\U{800}' then 2 else if s[0] < '\U{10000}' then 3 else 4) + Utf8Size(s[1..])
  }

  function Truncate(s: string): string {
    if Utf8Size(s) <= RENDER_ENTRY_MAX_CHARS then s
    else (if |s| > RENDER_ENTRY_MAX_CHARS then s[..RENDER_ENTRY_MAX_CHARS] else s) + "…"
  }

  function RoleLabel(role: string): string {
    if NormRole(role) == USER then "用户: "
    else if NormRole(role) == ASSISTANT then "助手: "
    else role + ": "
  }

  function JoinLines(parts: seq<string>): string {
    if parts == [] then "" else if |parts| == 1 then parts[0] else parts[0] + "\n" + JoinLines(parts[1..])
  }

  function RenderContent(c: Content): string
    decreases c, 1
  {
    match c
    case Nil => ""
    case Str(s) => Truncate(s)
    case Blocks(bs) => JoinLines(RenderBlocks(bs))
    case Raw(json) => Truncate(json)
  }

  function RenderBlocks(bs: seq<Block>): seq<string>
    decreases bs, 0
  {
    if bs == [] then [] else RenderBlock(bs[0]) + RenderBlocks(bs[1..])
  }

  /** One line for a block, or none. */
  function RenderBlock(b: Block): seq<string>
    decreases b, 2
  {
    match b.typ
    case TextBlock | Thinking => if TrimSpace(b.text) != "" then [Truncate(TrimSpace(b.text))] else []
    case ToolUse => ["[调用工具 " + b.name + " " + Truncate(b.input) + "]"]
    case ToolResult =>
      var s := TrimSpace(RenderContent(b.content));
      ["[工具结果] " + Truncate(if b.isError then "错误: " + s else s)]
    case Image => ["[图片]"]
    case _ => []
  }

  function RenderMessage(m: Message): string {
    var text := TrimSpace(RenderContent(m.content));
    if text == "" then "" else RoleLabel(m.role) + text
  }

  function OrNone(line: string): seq<string> {
    if line == "" then [] else [line]
  }

  /** The messages that render to something, in order. */
  function Lines(ms: seq<Message>): seq<string> {
    if ms == [] then [] else OrNone(RenderMessage(ms[0])) + Lines(ms[1..])
  }

  function LinesTokens(ls: seq<string>): nat {
    if ls == [] then 0 else TextTokens(ls[0]) + LinesTokens(ls[1..])
  }

  /** Start of the longest suffix of lines within the budget, growing backwards from i. */
  function KeepFrom(ls: seq<string>, budget: nat, i: nat): (k: nat)
    requires i <= |ls| && LinesTokens(ls[i..]) <= budget
    ensures k <= i && LinesTokens(ls[k..]) <= budget
    ensures k > 0 ==> LinesTokens(ls[k - 1..]) > budget
  {
    if i > 0 && LinesTokens(ls[i - 1..]) <= budget then KeepFrom(ls, budget, i - 1) else i
  }

  function Paragraphs(ls: seq<string>): string {
    if ls == [] then "" else ls[0] + "\n\n" + Paragraphs(ls[1..])
  }

  function TranscriptBudget(maxTokens: int): nat {
    if maxTokens <= 0 then DEFAULT_CONTEXT_WINDOW / TRANSCRIPT_RATIO_DEN else maxTokens
  }

  function KeptLines(ms: seq<Message>, maxTokens: int): seq<string> {
    var ls := Lines(ms);
    ls[KeepFrom(ls, TranscriptBudget(maxTokens), |ls|)..]
  }

  function Transcript(ms: seq<Message>, maxTokens: int): string {
    TrimSpace(Paragraphs(KeptLines(ms, maxTokens)))
  }

  function NonEmpty(rs: seq<string>): seq<string> {
    if rs == [] then [] else OrNone(rs[0]) + NonEmpty(rs[1..])
  }

  ghost predicate AreRendered(ms: seq<Message>, rs: seq<string>) {
    |rs| == |ms| && forall i {:trigger ms[i]} :: 0 <= i < |ms| ==> rs[i] == RenderMessage(ms[i])
  }

  lemma {:induction false} LinesAreNonEmpty(ms: seq<Message>, rs: seq<string>)
    requires AreRendered(ms, rs)
    ensures Lines(ms) == NonEmpty(rs)
  {
    if ms != [] {
      LinesAreNonEmpty(ms[1..], rs[1..]);
    }
  }

  lemma {:induction false} NonEmptyAppend(a: seq<string>, b: seq<string>)
    ensures NonEmpty(a + b) == NonEmpty(a) + NonEmpty(b)
  {
    if a == [] {
      assert a + b == b;
    } else {
      assert (a + b)[1..] == a[1..] + b;
      NonEmptyAppend(a[1..], b);
    }
  }

  lemma {:induction false} ParagraphsAppend(a: seq<string>, b: seq<string>)
    ensures Paragraphs(a + b) == Paragraphs(a) + Paragraphs(b)
  {
    if a == [] {
      assert a + b == b;
    } else {
      assert (a + b)[1..] == a[1..] + b;
      ParagraphsAppend(a[1..], b);
    }
  }

  lemma NonEmptyStep(rs: seq<string>, i: nat)
    requires i < |rs|
    ensures NonEmpty(rs[..i + 1]) == NonEmpty(rs[..i]) + OrNone(rs[i])
  {
    assert rs[..i + 1] == rs[..i] + [rs[i]];
    NonEmptyAppend(rs[..i], [rs[i]]);
    var one := [rs[i]];
    assert one[1..] == [];
    assert NonEmpty(one) == OrNone(rs[i]) + NonEmpty([]);
  }

  /** The first i entries make up the first k lines. */
  ghost predicate Aligned(rs: seq<string>, i: nat, ls: seq<string>, k: nat) {
    i <= |rs| && k <= |ls| && NonEmpty(rs[..i]) == ls[..k]
  }

  /** Stepping back over entry i either skips it or moves back over one line. */
  lemma StepBack(rs: seq<string>, i: nat, ls: seq<string>, k: nat)
    requires i < |rs| && Aligned(rs, i + 1, ls, k)
    ensures if rs[i] == "" then Aligned(rs, i, ls, k)
      else k > 0 && ls[k - 1] == rs[i] && Aligned(rs, i, ls, k - 1)
           && LinesTokens(ls[k - 1..]) == TextTokens(rs[i]) + LinesTokens(ls[k..])
  {
    NonEmptyStep(rs, i);
    if rs[i] != "" {
      assert ls[..k] == NonEmpty(rs[..i]) + [rs[i]];
      assert k > 0 && ls[..k][k - 1] == rs[i];
      assert ls[..k][..k - 1] == ls[..k - 1];
      assert ls[k - 1..][1..] == ls[k..];
    }
  }

  /** kept lists these lines, newest first. */
  ghost predicate Reversed(kept: seq<string>, lines: seq<string>) {
    |kept| == |lines| && forall j :: 0 <= j < |kept| ==> kept[j] == lines[|lines| - 1 - j]
  }

  lemma ReversedGrows(kept: seq<string>, ls: seq<string>, k: nat)
    requires 0 < k <= |ls| && Reversed(kept, ls[k..])
    ensures Reversed(kept + [ls[k - 1]], ls[k - 1..])
  {
  }

  /** Goes on collecting the lines before entry i, newest first, as long as they are affordable. */
  function Collect(rs: seq<string>, budget: nat, i: nat, used: nat, kept: seq<string>): seq<string>
    requires i <= |rs|
    decreases i
  {
    if i == 0 then kept
    else if rs[i - 1] == "" then Collect(rs, budget, i - 1, used, kept)
    else if used + TextTokens(rs[i - 1]) > budget then kept
    else Collect(rs, budget, i - 1, used + TextTokens(rs[i - 1]), kept + [rs[i - 1]])
  }

  lemma StopLine(ls: seq<string>, budget: nat, k: nat)
    requires 0 < k <= |ls| && LinesTokens(ls[k..]) <= budget < LinesTokens(ls[k - 1..])
    ensures KeepFrom(ls, budget, k) == k
  {
  }

  lemma GoLine(ls: seq<string>, budget: nat, k: nat)
    requires 0 < k <= |ls| && LinesTokens(ls[k..]) <= budget && LinesTokens(ls[k - 1..]) <= budget
    ensures KeepFrom(ls, budget, k) == KeepFrom(ls, budget, k - 1)
  {
  }

  lemma AlignedStart(rs: seq<string>, ls: seq<string>, k: nat)
    requires Aligned(rs, 0, ls, k)
    ensures k == 0
  {
    assert |NonEmpty(rs[..0])| == |ls[..k]|;
  }

  /** A line taken over brings the collecting one step back in the messages and in the lines. */
  lemma CollectGoes(rs: seq<string>, i: nat, ls: seq<string>, k: nat, budget: nat, kept: seq<string>)
    requires 0 < i <= |rs| && 0 < k <= |ls| && rs[i - 1] == ls[k - 1] != ""
    requires LinesTokens(ls[k - 1..]) == TextTokens(ls[k - 1]) + LinesTokens(ls[k..]) <= budget
    ensures Collect(rs, budget, i, LinesTokens(ls[k..]), kept)
      == Collect(rs, budget, i - 1, LinesTokens(ls[k - 1..]), kept + [ls[k - 1]])
  {
  }

  /** Collecting newest first keeps the longest affordable suffix. */
  lemma {:induction false} CollectKeeps(rs: seq<string>, i: nat, ls: seq<string>, k: nat, budget: nat, kept: seq<string>)
    requires Aligned(rs, i, ls, k) && LinesTokens(ls[k..]) <= budget && Reversed(kept, ls[k..])
    ensures Reversed(Collect(rs, budget, i, LinesTokens(ls[k..]), kept), ls[KeepFrom(ls, budget, k)..])
    decreases i
  {
    if i == 0 {
      AlignedStart(rs, ls, k);
    } else {
      StepBack(rs, i - 1, ls, k);
      if rs[i - 1] == "" {
        CollectKeeps(rs, i - 1, ls, k, budget, kept);
      } else if LinesTokens(ls[k - 1..]) > budget {
        StopLine(ls, budget, k);
      } else {
        ReversedGrows(kept, ls, k);
        GoLine(ls, budget, k);
        CollectGoes(rs, i, ls, k, budget, kept);
        CollectKeeps(rs, i - 1, ls, k - 1, budget, kept + [ls[k - 1]]);
      }
    }
  }

  lemma AllLinesCollected(rs: seq<string>, budget: nat)
    ensures var ls := NonEmpty(rs); Reversed(Collect(rs, budget, |rs|, 0, []), ls[KeepFrom(ls, budget, |ls|)..])
  {
    var ls := NonEmpty(rs);
    assert rs[..|rs|] == rs && ls[..|ls|] == ls && ls[|ls|..] == [];
    CollectKeeps(rs, |rs|, ls, |ls|, budget, []);
  }

  /** Collecting newest first under a budget and writing oldest first renders the longest affordable suffix. */
  method RenderTranscript(ms: seq<Message>, maxTokens: int) returns (text: string)
    ensures text == Transcript(ms, maxTokens)
  {
    var budget := TranscriptBudget(maxTokens);
    ghost var rs := seq(|ms|, i requires 0 <= i < |ms| => RenderMessage(ms[i]));
    var kept := CollectLines(ms, budget, rs);
    LinesAreNonEmpty(ms, rs);
    AllLinesCollected(rs, budget);
    text := WriteReversed(kept, KeptLines(ms, maxTokens));
    text := TrimSpace(text);
  }

  method LineAt(ms: seq<Message>, i: nat, ghost rs: seq<string>) returns (line: string)
    requires i < |ms| && AreRendered(ms, rs)
    ensures line == rs[i]
  {
    line := RenderMessage(ms[i]);
  }

  method CollectLines(ms: seq<Message>, budget: nat, ghost rs: seq<string>) returns (kept: seq<string>)
    requires AreRendered(ms, rs)
    ensures kept == Collect(rs, budget, |ms|, 0, [])
  {
    kept := [];
    var used: nat := 0;
    var i: nat := |ms|;
    while i > 0
      invariant i <= |ms|
      invariant Collect(rs, budget, i, used, kept) == Collect(rs, budget, |ms|, 0, [])
    {
      i := i - 1;
      var line := LineAt(ms, i, rs);
      if line == "" {
        continue;
      }
      var t := TextTokens(line);
      if used + t > budget {
        break;
      }
      used := used + t;
      kept := kept + [line];
    }
  }

  method WriteReversed(kept: seq<string>, ghost lines: seq<string>) returns (text: string)
    requires Reversed(kept, lines)
    ensures text == Paragraphs(lines)
  {
    text := "";
    var i := |kept|;
    while i > 0
      invariant 0 <= i <= |kept|
      invariant text == Paragraphs(lines[..|lines| - i])
    {
      i := i - 1;
      var n := |lines| - i - 1;
      assert lines[..n + 1] == lines[..n] + [lines[n]];
      ParagraphsAppend(lines[..n], [lines[n]]);
      assert Paragraphs([lines[n]]) == lines[n] + "\n\n" + "";
      text := text + kept[i] + "\n\n";
    }
    assert lines[..|lines|] == lines;
  }

  lemma {:induction false} ParagraphsCost(ls: seq<string>)
    ensures TextTokens(Paragraphs(ls)) <= LinesTokens(ls) + |ls|
  {
    if ls != [] {
      ParagraphsCost(ls[1..]);
      TokensConcat(ls[0] + "\n\n", Paragraphs(ls[1..]));
      TokensConcat(ls[0], "\n\n");
      assert Wide("\n\n") == 0 + Wide("\n") == 0;
    }
  }

  /** kept ends ls, is affordable, and would not be with one line more. */
  ghost predicate MaximalSuffix(kept: seq<string>, ls: seq<string>, budget: nat) {
    && |kept| <= |ls| && kept == ls[|ls| - |kept|..]
    && LinesTokens(kept) <= budget
    && (|kept| < |ls| ==> LinesTokens(ls[|ls| - |kept| - 1..]) > budget)
  }

  lemma KeptIsMaximalSuffix(ls: seq<string>, budget: nat)
    ensures var kept := ls[KeepFrom(ls, budget, |ls|)..];
      MaximalSuffix(kept, ls, budget) && TextTokens(TrimSpace(Paragraphs(kept))) <= budget + |kept|
  {
    var kept := ls[KeepFrom(ls, budget, |ls|)..];
    ParagraphsCost(kept);
    TrimCostsNoMore(Paragraphs(kept));
  }

  /** The transcript shows a suffix of the rendered messages that cannot be extended, and estimates to at most
      the budget plus one token per entry. */
  lemma TranscriptIsMaximalSuffix(ms: seq<Message>, maxTokens: int)
    ensures var kept, budget := KeptLines(ms, maxTokens), if maxTokens <= 0 then DEFAULT_CONTEXT_WINDOW / 2 else maxTokens;
      MaximalSuffix(kept, Lines(ms), budget) && TextTokens(Transcript(ms, maxTokens)) <= budget + |kept|
  {
    KeptIsMaximalSuffix(Lines(ms), TranscriptBudget(maxTokens));
  }

  // ----- Replacing the prefix by a summary -----

  /** How one summary request ended. */
  datatype Attempt = Summary(text: string) | Truncated | Broken | Interrupted

  /** The outcomes the environment would give to the first request and, if made, to the second. */
  datatype Summaries = Summaries(first: Attempt, second: Attempt)

  datatype CompactResult =
    | Compacted(messages: seq<Message>, removed: nat)
    | NothingToCompact
    | Failed

  /** One retry, and only after a break: truncation would repeat itself and cancellation must not be held up. */
  function Summarize(s: Summaries): Option<string> {
    match s.first
    case Summary(text) => Some(text)
    case Truncated => None
    case Interrupted => None
    case Broken => if s.second.Summary? then Some(s.second.text) else None
  }

  function EffectiveWindow(window: int): nat {
    if window <= 0 then DEFAULT_CONTEXT_WINDOW else window
  }

  function Compact(ms: seq<Message>, window: int, sums: Summaries): CompactResult {
    var w := EffectiveWindow(window);
    var split := SplitIndex(ms, w);
    if split == 0 then NothingToCompact
    else if Transcript(ms[..split], w / TRANSCRIPT_RATIO_DEN) == "" then NothingToCompact
    else Summarized(ms, split, Summarize(sums))
  }

  function Summarized(ms: seq<Message>, split: nat, summary: Option<string>): CompactResult
    requires split <= |ms|
  {
    if summary.None? || TrimSpace(summary.value) == "" then Failed
    else Compacted([SummaryMessage(summary.value)] + ms[split..], split)
  }

  function SummaryMessage(summary: string): Message {
    Message(USER, Str(SUMMARY_HEADER + TrimSpace(summary)))
  }

  method CompactHistory(ms: seq<Message>, window: int, sums: Summaries) returns (r: CompactResult)
    ensures r == Compact(ms, window, sums)
  {
    var w := EffectiveWindow(window);
    var split := CompactSplitIndex(ms, w);
    if split <= 0 || split >= |ms| {
      return NothingToCompact;
    }
    var transcript := RenderTranscript(ms[..split], w / TRANSCRIPT_RATIO_DEN);
    if TrimSpace(transcript) == "" {
      TrimTwice(Paragraphs(KeptLines(ms[..split], w / TRANSCRIPT_RATIO_DEN)));
      return NothingToCompact;
    }
    var summary := Summarize(sums);
    assert Compact(ms, window, sums) == Summarized(ms, split, summary);
    if summary.None? || TrimSpace(summary.value) == "" {
      return Failed;
    }
    r := Compacted([SummaryMessage(summary.value)] + ms[split..], split);
  }

  lemma {:induction false} TrimLeftStops(s: string)
    ensures TrimLeft(s) == "" || !IsSpace(TrimLeft(s)[0])
  {
    if s != "" && IsSpace(s[0]) {
      TrimLeftStops(s[1..]);
    }
  }

  lemma {:induction false} TrimRightStops(s: string)
    ensures TrimRight(s) == "" || (!IsSpace(TrimRight(s)[|TrimRight(s)| - 1]) && TrimRight(s)[0] == s[0])
  {
    if s != "" && IsSpace(s[|s| - 1]) {
      TrimRightStops(s[..|s| - 1]);
    }
  }

  lemma TrimTwice(s: string)
    ensures TrimSpace(TrimSpace(s)) == TrimSpace(s)
  {
    TrimLeftStops(s);
    TrimRightStops(TrimLeft(s));
  }

  /** Summary plus tail is again paired, and the last message, steering included, is kept verbatim. */
  lemma CompactKeepsPairing(ms: seq<Message>, window: int, sums: Summaries)
    requires Paired(ms) && Compact(ms, window, sums).Compacted?
    ensures var r := Compact(ms, window, sums);
      && Paired(r.messages)
      && 0 < r.removed < |ms| && r.messages[1..] == ms[r.removed..]
      && r.messages[|r.messages| - 1] == ms[|ms| - 1]
      && Uses(r.messages[0]) == [] && Results(r.messages[0]) == []
  {
    var r := Compact(ms, window, sums);
    SplitIsLegal(ms, EffectiveWindow(window));
    SummaryPlusTail(ms, r.removed, r.messages[0]);
  }

  lemma TailFitsLater(ms: seq<Message>, budget: nat, i: nat, j: nat)
    requires i <= j <= |ms| && TailFits(ms, budget, i)
    ensures TailFits(ms, budget, j)
  {
    TokensSuffixLe(ms, i, j);
  }

  /** Nothing from i on is cut off exactly when the tail from i fits. */
  lemma GreedyCutWithin(ms: seq<Message>, window: nat, i: nat)
    requires i <= |ms|
    ensures GreedyCut(ms, window) <= i <==> TailFits(ms, window / TAIL_RATIO_DEN, i)
  {
    var cut, budget := GreedyCut(ms, window), window / TAIL_RATIO_DEN;
    TailStartIsLongest(ms, budget, |ms|);
    if cut <= i {
      TailFitsLater(ms, budget, cut, i);
    } else if TailFits(ms, budget, i) {
      TailFitsLater(ms, budget, i, cut - 1);
    }
  }

  /** Several messages fit the tail when they cost at most its share of the window; one always does. */
  predicate FitsTail(ms: seq<Message>, window: nat) {
    |ms| <= 1 || Tokens(ms) <= window / TAIL_RATIO_DEN
  }

  /** A compaction right behind messages that may open a tail keeps all of them exactly when they fit it. */
  lemma LatestSurviveIff(h: seq<Message>, latest: seq<Message>, window: int, sums: Summaries)
    requires forall k :: 0 <= k < |latest| ==> TailBoundary(latest[k])
    requires Compact(h + latest, window, sums).Compacted?
    ensures Compact(h + latest, window, sums).removed <= |h| <==> FitsTail(latest, EffectiveWindow(window))
  {
    var ms, w := h + latest, EffectiveWindow(window);
    assert Compact(ms, window, sums).removed == SplitIndex(ms, w);
    LatestSplitIff(h, latest, w);
  }

  lemma LatestSplitIff(h: seq<Message>, latest: seq<Message>, window: nat)
    requires forall k :: 0 <= k < |latest| ==> TailBoundary(latest[k])
    ensures SplitIndex(h + latest, window) <= |h| <==> FitsTail(latest, window)
  {
    var ms := h + latest;
    var cut := GreedyCut(ms, window);
    assert ms[|h|..] == latest;
    GreedyCutWithin(ms, window, |h|);
    if cut > |h| {
      assert ms[cut] == latest[cut - |h|];
    }
  }

  lemma SummaryPlusTail(ms: seq<Message>, k: nat, m: Message)
    requires Paired(ms) && 0 < k < |ms| && TailBoundary(ms[k])
    requires Uses(m) == [] && Results(m) == []
    ensures var out := [m] + ms[k..];
      Paired(out) && out[1..] == ms[k..] && out[|out| - 1] == ms[|ms| - 1]
  {
    BoundaryAnswersNothing(ms, k);
    PairedSuffix(ms, k);
    PairedPrepend(m, ms[k..]);
  }

  lemma BoundaryAnswersNothing(ms: seq<Message>, k: nat)
    requires Paired(ms) && k < |ms| && TailBoundary(ms[k])
    ensures Results(ms[k]) == []
  {
    assert Asked(ms, k);
  }
}
