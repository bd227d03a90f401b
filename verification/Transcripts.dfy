/** What of a history a summary is made from, and what becomes of it (app/agentcore/compact.go). */
module Transcripts {
  import opened Text
  import opened Messages
  import opened Wrappers
  import opened Compaction

  // ----- Parts of one message -----

  /** Text within the limit for one entry. */
  predicate Short(s: string) {
    Utf8Size(s) <= RENDER_ENTRY_MAX_CHARS
  }

  lemma TruncatedIsSolid(s: string)
    requires Solid(s)
    ensures Solid(Truncate(s)) && (Short(s) ==> Truncate(s) == s)
  {
  }

  lemma {:induction false} JoinShows(parts: seq<string>, k: nat)
    requires k < |parts|
    ensures Within(parts[k], JoinLines(parts))
  {
    if |parts| == 1 {
      WithinConcat("", parts[0], "");
      assert "" + parts[0] + "" == parts[0];
    } else if k == 0 {
      WithinConcat("", parts[0], "\n" + JoinLines(parts[1..]));
      assert "" + parts[0] + ("\n" + JoinLines(parts[1..])) == JoinLines(parts);
    } else {
      JoinShows(parts[1..], k - 1);
      WithinWider(parts[k], JoinLines(parts[1..]), parts[0] + "\n", "");
      assert parts[0] + "\n" + JoinLines(parts[1..]) + "" == JoinLines(parts);
    }
  }

  lemma {:induction false} BlockLines(bs: seq<Block>, k: nat) returns (j: nat)
    requires k < |bs| && |RenderBlock(bs[k])| == 1
    ensures j < |RenderBlocks(bs)| && RenderBlocks(bs)[j] == RenderBlock(bs[k])[0]
  {
    if k == 0 {
      j := 0;
    } else {
      j := BlockLines(bs[1..], k - 1);
      j := |RenderBlock(bs[0])| + j;
    }
  }

  lemma BlockIsShown(bs: seq<Block>, k: nat)
    requires k < |bs| && |RenderBlock(bs[k])| == 1
    ensures Within(RenderBlock(bs[k])[0], RenderContent(Blocks(bs)))
  {
    var j := BlockLines(bs, k);
    JoinShows(RenderBlocks(bs), j);
  }

  lemma PartOfBlock(bs: seq<Block>, k: nat, part: string, a: string, b: string)
    requires k < |bs| && RenderBlock(bs[k]) == [a + part + b]
    ensures Within(part, RenderContent(Blocks(bs)))
  {
    BlockIsShown(bs, k);
    var c, d := SplitAround(a + part + b, RenderContent(Blocks(bs)));
    assert c + (a + part + b) + d == (c + a) + part + (b + d);
    WithinConcat(c + a, part, b + d);
  }

  /** The text of a block is shown. */
  lemma TextIsShown(bs: seq<Block>, k: nat)
    requires k < |bs| && (bs[k].typ == TextBlock || bs[k].typ == Thinking) && TrimSpace(bs[k].text) != ""
    ensures Within(Truncate(TrimSpace(bs[k].text)), RenderContent(Blocks(bs)))
  {
    var part := Truncate(TrimSpace(bs[k].text));
    assert "" + part + "" == part;
    PartOfBlock(bs, k, part, "", "");
  }

  /** A tool request is shown with its name and its arguments. */
  lemma ToolUseIsShown(bs: seq<Block>, k: nat)
    requires k < |bs| && bs[k].typ == ToolUse
    ensures Within(bs[k].name, RenderContent(Blocks(bs))) && Within(Truncate(bs[k].input), RenderContent(Blocks(bs)))
  {
    var name, input := bs[k].name, Truncate(bs[k].input);
    assert "[调用工具 " + name + (" " + input + "]") == "[调用工具 " + name + " " + input + "]";
    PartOfBlock(bs, k, name, "[调用工具 ", " " + input + "]");
    assert ("[调用工具 " + name + " ") + input + "]" == "[调用工具 " + name + " " + input + "]";
    PartOfBlock(bs, k, input, "[调用工具 " + name + " ", "]");
  }

  /** A tool's result is shown, and that it failed. */
  lemma ResultIsShown(bs: seq<Block>, k: nat)
    requires k < |bs| && bs[k].typ == ToolResult
    requires var s := TrimSpace(RenderContent(bs[k].content)); Short("错误: " + s) && Short(s)
    ensures Within(TrimSpace(RenderContent(bs[k].content)), RenderContent(Blocks(bs)))
    ensures bs[k].isError ==> Within("错误", RenderContent(Blocks(bs)))
  {
    var s := TrimSpace(RenderContent(bs[k].content));
    if bs[k].isError {
      assert ("[工具结果] 错误: ") + s + "" == "[工具结果] " + ("错误: " + s);
      PartOfBlock(bs, k, s, "[工具结果] 错误: ", "");
      assert ("[工具结果] ") + "错误" + (": " + s) == "[工具结果] " + ("错误: " + s);
      PartOfBlock(bs, k, "错误", "[工具结果] ", ": " + s);
    } else {
      assert "[工具结果] " + s + "" == "[工具结果] " + s;
      PartOfBlock(bs, k, s, "[工具结果] ", "");
    }
  }

  predicate KnownRole(m: Message) {
    IsUser(m) || IsAssistant(m)
  }

  /** What a message shows is in its line, behind a label for its role. */
  lemma PartIsInLine(m: Message, part: string)
    requires KnownRole(m) && Solid(part) && Within(part, RenderContent(m.content))
    ensures Solid(RenderMessage(m)) && Within(part, RenderMessage(m))
    ensures (if IsUser(m) then "用户: " else "助手: ") <= RenderMessage(m)
  {
    TrimKeepsPart(part, RenderContent(m.content));
    TrimmedIsSolid(RenderContent(m.content));
    Labelled(if IsUser(m) then "用户: " else "助手: ", TrimSpace(RenderContent(m.content)), part);
  }

  lemma Labelled(tag: string, text: string, part: string)
    requires (tag == "用户: " || tag == "助手: ") && part != "" && Within(part, text) && (text != "" ==> Solid(text))
    ensures text != "" && Solid(tag + text) && Within(part, tag + text) && tag <= tag + text
  {
    WithinWider(part, text, tag, "");
    assert tag + text + "" == tag + text;
  }

  // ----- The transcript -----

  lemma {:induction false} SuffixesCostLess(ls: seq<string>, i: nat, j: nat)
    requires i <= j <= |ls|
    ensures LinesTokens(ls[j..]) <= LinesTokens(ls[i..])
    decreases j - i
  {
    if i < j {
      assert ls[i..][1..] == ls[i + 1..];
      SuffixesCostLess(ls, i + 1, j);
    }
  }

  /** No affordable suffix is longer than the one kept. */
  lemma KeptIsLongest(ls: seq<string>, budget: nat, j: nat)
    requires j <= |ls| && LinesTokens(ls[j..]) <= budget
    ensures KeepFrom(ls, budget, |ls|) <= j
  {
    var k := KeepFrom(ls, budget, |ls|);
    if k > j {
      SuffixesCostLess(ls, j, k - 1);
    }
  }

  lemma {:induction false} ParagraphShows(ls: seq<string>, k: nat)
    requires k < |ls|
    ensures Within(ls[k], Paragraphs(ls))
  {
    if k == 0 {
      WithinConcat("", ls[0], "\n\n" + Paragraphs(ls[1..]));
      assert "" + ls[0] + ("\n\n" + Paragraphs(ls[1..])) == Paragraphs(ls);
    } else {
      ParagraphShows(ls[1..], k - 1);
      WithinWider(ls[k], Paragraphs(ls[1..]), ls[0] + "\n\n", "");
      assert ls[0] + "\n\n" + Paragraphs(ls[1..]) + "" == Paragraphs(ls);
    }
  }

  lemma LinesSplit(ms: seq<Message>, k: nat)
    requires k < |ms| && RenderMessage(ms[k]) != ""
    ensures var n := |Lines(ms[..k])|;
      n < |Lines(ms)| && Lines(ms)[n] == RenderMessage(ms[k]) && Lines(ms)[n..] == Lines(ms[k..])
  {
    var rs := seq(|ms|, i requires 0 <= i < |ms| => RenderMessage(ms[i]));
    LinesAreNonEmpty(ms, rs);
    LinesAreNonEmpty(ms[..k], rs[..k]);
    LinesAreNonEmpty(ms[k..], rs[k..]);
    NonEmptySplit(rs, k);
  }

  lemma NonEmptySplit(rs: seq<string>, k: nat)
    requires k < |rs| && rs[k] != ""
    ensures var n := |NonEmpty(rs[..k])|;
      n < |NonEmpty(rs)| && NonEmpty(rs)[n] == rs[k] && NonEmpty(rs)[n..] == NonEmpty(rs[k..])
  {
    assert rs == rs[..k] + rs[k..];
    NonEmptyAppend(rs[..k], rs[k..]);
    assert NonEmpty(rs[k..]) == [rs[k]] + NonEmpty(rs[k..][1..]);
  }

  /** Whatever a message says, in a part that neither begins nor ends in space, is shown by the transcript when the
      messages from there on fit the budget. */
  lemma AffordableIsShown(ms: seq<Message>, k: nat, maxTokens: int, part: string)
    requires k < |ms| && KnownRole(ms[k]) && Solid(part) && Within(part, RenderContent(ms[k].content))
    requires LinesTokens(Lines(ms[k..])) <= TranscriptBudget(maxTokens)
    ensures Within(part, Transcript(ms, maxTokens))
  {
    PartIsInLine(ms[k], part);
    LinesSplit(ms, k);
    LineIsShown(Lines(ms), TranscriptBudget(maxTokens), |Lines(ms[..k])|);
    PartsNest(part, RenderMessage(ms[k]), Transcript(ms, maxTokens));
  }

  lemma LineIsShown(ls: seq<string>, budget: nat, n: nat)
    requires n < |ls| && Solid(ls[n]) && LinesTokens(ls[n..]) <= budget
    ensures Within(ls[n], TrimSpace(Paragraphs(ls[KeepFrom(ls, budget, |ls|)..])))
  {
    KeptIsLongest(ls, budget, n);
    var kept := ls[KeepFrom(ls, budget, |ls|)..];
    ParagraphShows(kept, n - KeepFrom(ls, budget, |ls|));
    TrimKeepsPart(ls[n], Paragraphs(kept));
  }

  lemma PartsNest(a: string, b: string, c: string)
    requires Within(a, b) && Within(b, c)
    ensures Within(a, c)
  {
    var x, y := SplitAround(b, c);
    WithinWider(a, b, x, y);
  }

  // ----- What compaction makes of it -----

  /** The summary the upstream gives: the first attempt's, or after a break the second's. */
  predicate Gives(sums: Summaries, text: string) {
    sums.first == Summary(text) || (sums.first == Broken && sums.second == Summary(text))
  }

  /** Compaction finds nothing to do exactly when there is nothing to cut or nothing to show; otherwise it succeeds exactly
      when some summary that is not blank is given. Then a message from the user with that summary stands for the
      messages cut off, and the others stay. */
  lemma CompactIff(ms: seq<Message>, window: int, sums: Summaries)
    ensures var w := if window <= 0 then DEFAULT_CONTEXT_WINDOW else window;
      var split := SplitIndex(ms, w);
      var nothing := split == 0 || Transcript(ms[..split], w / 2) == "";
      var r := Compact(ms, window, sums);
      && (r.NothingToCompact? <==> nothing)
      && (r.Compacted? <==> !nothing && exists text :: Gives(sums, text) && TrimSpace(text) != "")
      && (r.Compacted? ==> r.removed == split && r.messages != [] && r.messages[1..] == ms[split..])
      && (r.Compacted? ==> forall text :: Gives(sums, text) ==> TellsSummary(r.messages[0], text))
  {
    var w := if window <= 0 then DEFAULT_CONTEXT_WINDOW else window;
    var split := SplitIndex(ms, w);
    SummaryIff(sums);
    forall text | Gives(sums, text) ensures TellsSummary(SummaryMessage(text), text) {
      SummaryTells(text);
    }
    SummarizedIff(ms, split, Summarize(sums));
  }

  predicate TellsSummary(m: Message, text: string) {
    m.role == USER && m.content.Str? && Within(TrimSpace(text), m.content.s)
  }

  lemma SummaryTells(text: string)
    ensures TellsSummary(SummaryMessage(text), text)
  {
    WithinConcat(SUMMARY_HEADER, TrimSpace(text), "");
    assert SUMMARY_HEADER + TrimSpace(text) + "" == SUMMARY_HEADER + TrimSpace(text);
  }

  lemma SummaryIff(sums: Summaries)
    ensures forall text :: Gives(sums, text) <==> Summarize(sums) == Some(text)
  {
  }

  lemma SummarizedIff(ms: seq<Message>, split: nat, summary: Option<string>)
    requires split <= |ms|
    ensures var r := Summarized(ms, split, summary);
      && (r.Compacted? <==> summary.Some? && TrimSpace(summary.value) != "") && !r.NothingToCompact?
      && (r.Compacted? ==> r.removed == split && |r.messages| > 0 && r.messages[1..] == ms[split..]
                           && r.messages[0] == SummaryMessage(summary.value))
  {
  }
}
