/** One streamed reply: folding events into the assistant's content blocks (app/agentcore/loop.go, streamTurn). */
module Streaming {
  import opened Text
  import opened Messages
  import opened Wrappers
  import opened Cache

  datatype Usage = Usage(input: nat, cacheRead: nat, cacheCreation: nat)

  datatype Event =
    | Start(usage: Option<Usage>)
    | TextDelta(index: nat, text: string)
    | ThinkingDelta(index: nat, text: string)
    | ImageBlock(index: nat, source: ImageSource)
    | ToolUseStart(index: nat, id: string, name: string)
    | ToolInput(index: nat, json: string)
    | BlockStop(index: nat)
    | Stop(reason: string, usage: Option<Usage>)

  /** A reply under construction; `tokens` is the context size as the upstream last reported it. */
  datatype Draft = Draft(blocks: seq<Block>, partial: map<nat, string>, stop: string, tokens: nat, framed: bool)

  function Total(u: Usage): nat {
    u.input + u.cacheRead + u.cacheCreation
  }

  function Grown(bs: seq<Block>, index: nat): (r: seq<Block>)
    ensures |r| > index && |r| >= |bs|
    ensures forall i :: 0 <= i < |r| ==> r[i] == if i < |bs| then bs[i] else Block(Untyped)
  {
    if index < |bs| then bs else bs + seq(index + 1 - |bs|, _ => Block(Untyped))
  }

  function ParsedInput(raw: string, parse: string -> string): string {
    if TrimSpace(raw) == "" then "{}" else parse(TrimSpace(raw))
  }

  /** One event; `writer` says whether frames are sent to the host, `parse` canonicalizes a JSON object. */
  function Absorb(d: Draft, ev: Event, writer: bool, parse: string -> string): Draft {
    match ev
    case Start(u) => d.(tokens := if u.Some? then Total(u.value) else d.tokens, framed := d.framed || writer)
    case TextDelta(i, t) =>
      var bs := Grown(d.blocks, i);
      d.(blocks := bs[i := bs[i].(typ := TextBlock, text := bs[i].text + t)])
    case ThinkingDelta(_, _) => d
    case ImageBlock(i, src) => d.(blocks := Grown(d.blocks, i)[i := Block(Image, source := Some(src))])
    case ToolUseStart(i, id, name) =>
      d.(blocks := Grown(d.blocks, i)[i := Block(ToolUse, id := id, name := name)], partial := d.partial[i := ""])
    case ToolInput(i, json) =>
      d.(blocks := Grown(d.blocks, i),
         partial := if i in d.partial then d.partial[i := d.partial[i] + json] else d.partial)
    case BlockStop(i) =>
      var bs := Grown(d.blocks, i);
      d.(blocks := if i in d.partial then bs[i := bs[i].(input := ParsedInput(d.partial[i], parse))] else bs)
    case Stop(reason, u) =>
      d.(stop := reason, tokens := if u.Some? && Total(u.value) > d.tokens then Total(u.value) else d.tokens)
  }

  function AbsorbAll(d: Draft, evs: seq<Event>, writer: bool, parse: string -> string): Draft
    decreases |evs|
  {
    if evs == [] then d else AbsorbAll(Absorb(d, evs[0], writer, parse), evs[1..], writer, parse)
  }

  predicate KeepsBlock(b: Block) {
    b.typ != Untyped && !(b.typ == TextBlock && b.text == "")
  }

  /** Blocks that never received anything are dropped. */
  function Cleaned(bs: seq<Block>): seq<Block> {
    if bs == [] then [] else Kept(bs[0]) + Cleaned(bs[1..])
  }

  method StreamTurn(events: seq<Event>, tokens: nat, writer: bool, parse: string -> string)
    returns (blocks: seq<Block>, stop: string, contextTokens: nat, framed: bool)
    ensures var d := AbsorbAll(Draft([], map[], "", tokens, false), events, writer, parse);
      blocks == Cleaned(d.blocks) && stop == d.stop && contextTokens == d.tokens && framed == d.framed
  {
    var acc: seq<Block>, partial: map<nat, string> := [], map[];
    stop, contextTokens, framed := "", tokens, false;
    ghost var final := AbsorbAll(Draft([], map[], "", tokens, false), events, writer, parse);
    for n := 0 to |events|
      invariant AbsorbAll(Draft(acc, partial, stop, contextTokens, framed), events[n..], writer, parse) == final
    {
      ghost var before := Draft(acc, partial, stop, contextTokens, framed);
      assert events[n..][1..] == events[n + 1..];
      match events[n] {
        case Start(u) =>
          if u.Some? {
            contextTokens := Total(u.value);
          }
          framed := framed || writer;
        case TextDelta(i, t) =>
          acc := Grown(acc, i);
          acc := acc[i := acc[i].(typ := TextBlock, text := acc[i].text + t)];
        case ThinkingDelta(_, _) =>
        case ImageBlock(i, src) =>
          acc := Grown(acc, i);
          acc := acc[i := Block(Image, source := Some(src))];
        case ToolUseStart(i, id, name) =>
          acc := Grown(acc, i);
          acc := acc[i := Block(ToolUse, id := id, name := name)];
          partial := partial[i := ""];
        case ToolInput(i, json) =>
          acc := Grown(acc, i);
          if i in partial {
            partial := partial[i := partial[i] + json];
          }
        case BlockStop(i) =>
          acc := Grown(acc, i);
          if i in partial {
            acc := acc[i := acc[i].(input := ParsedInput(partial[i], parse))];
          }
        case Stop(reason, u) =>
          stop := reason;
          if u.Some? && Total(u.value) > contextTokens {
            contextTokens := Total(u.value);
          }
      }
      assert Draft(acc, partial, stop, contextTokens, framed) == Absorb(before, events[n], writer, parse);
    }
    blocks := Clean(acc);
  }

  function Kept(b: Block): seq<Block> {
    if KeepsBlock(b) then [b] else []
  }

  lemma {:induction false} CleanedAppend(bs: seq<Block>, b: Block)
    ensures Cleaned(bs + [b]) == Cleaned(bs) + Kept(b)
  {
    if bs == [] {
      assert [b][1..] == [];
    } else {
      assert (bs + [b])[1..] == bs[1..] + [b];
      CleanedAppend(bs[1..], b);
    }
  }

  method Clean(acc: seq<Block>) returns (cleaned: seq<Block>)
    ensures cleaned == Cleaned(acc)
  {
    cleaned := [];
    for i := 0 to |acc|
      invariant cleaned == Cleaned(acc[..i])
    {
      assert acc[..i + 1] == acc[..i] + [acc[i]];
      CleanedAppend(acc[..i], acc[i]);
      if acc[i].typ == Untyped {
        continue;
      }
      if acc[i].typ == TextBlock && acc[i].text == "" {
        continue;
      }
      cleaned := cleaned + [acc[i]];
    }
    assert acc[..|acc|] == acc;
  }

  /** What a model can put into the history: text, images and tool requests, without marks. */
  predicate AnswerBlock(b: Block) {
    (b.typ == Untyped || b.typ == TextBlock || b.typ == Image || b.typ == ToolUse) && !b.cached
  }

  predicate Answer(bs: seq<Block>) {
    forall i :: 0 <= i < |bs| ==> AnswerBlock(bs[i])
  }

  lemma {:induction false} DraftIsAnswer(d: Draft, evs: seq<Event>, writer: bool, parse: string -> string)
    requires Answer(d.blocks)
    decreases |evs|
    ensures Answer(AbsorbAll(d, evs, writer, parse).blocks)
  {
    if evs != [] {
      DraftIsAnswer(Absorb(d, evs[0], writer, parse), evs[1..], writer, parse);
    }
  }

  lemma {:induction false} AnswerHasNoResults(bs: seq<Block>)
    requires Answer(bs)
    ensures ResultIds(bs) == [] && BlockMarks(bs) == 0
  {
    if bs != [] {
      AnswerHasNoResults(bs[1..]);
    }
  }

  lemma {:induction false} CleanedIsAnswer(bs: seq<Block>)
    requires Answer(bs)
    ensures Answer(Cleaned(bs)) && forall i :: 0 <= i < |Cleaned(bs)| ==> KeepsBlock(Cleaned(bs)[i])
    ensures UseIds(Cleaned(bs)) == UseIds(bs)
  {
    if bs != [] {
      CleanedIsAnswer(bs[1..]);
      if KeepsBlock(bs[0]) {
        assert Cleaned(bs)[1..] == Cleaned(bs[1..]);
      } else {
        assert Cleaned(bs) == Cleaned(bs[1..]);
      }
    }
  }

  /** Whatever is streamed, the reply holds no tool result, no mark and no empty block. */
  lemma ReplyIsAnswer(events: seq<Event>, tokens: nat, writer: bool, parse: string -> string)
    ensures var bs := Cleaned(AbsorbAll(Draft([], map[], "", tokens, false), events, writer, parse).blocks);
      && ResultIds(bs) == [] && BlockMarks(bs) == 0
      && forall i :: 0 <= i < |bs| ==> KeepsBlock(bs[i])
  {
    var d := AbsorbAll(Draft([], map[], "", tokens, false), events, writer, parse);
    DraftIsAnswer(Draft([], map[], "", tokens, false), events, writer, parse);
    CleanedIsAnswer(d.blocks);
    AnswerHasNoResults(Cleaned(d.blocks));
  }

  /** Text pieces streamed to one block, in order. */
  function TextAt(evs: seq<Event>, index: nat): string {
    if evs == [] then "" else TextOf(evs[0], index) + TextAt(evs[1..], index)
  }

  function TextOf(ev: Event, index: nat): string {
    if ev.TextDelta? && ev.index == index then ev.text else ""
  }

  predicate OnlyTextAt(evs: seq<Event>, index: nat) {
    forall i :: 0 <= i < |evs| ==>
      !(evs[i].ImageBlock? && evs[i].index == index) && !(evs[i].ToolUseStart? && evs[i].index == index)
  }

  function BlockText(bs: seq<Block>, index: nat): string {
    if index < |bs| then bs[index].text else ""
  }

  /** Text written to one block arrives whole and in order, whatever is streamed to other blocks meanwhile. */
  lemma {:induction false} TextArrivesWhole(d: Draft, evs: seq<Event>, index: nat, writer: bool, parse: string -> string)
    requires OnlyTextAt(evs, index)
    decreases |evs|
    ensures BlockText(AbsorbAll(d, evs, writer, parse).blocks, index) == BlockText(d.blocks, index) + TextAt(evs, index)
  {
    if evs != [] {
      var next := Absorb(d, evs[0], writer, parse);
      assert OnlyTextAt(evs[1..], index);
      TextArrivesWhole(next, evs[1..], index, writer, parse);
      OneTextArrives(d, evs[0], index, writer, parse);
      var before, one, rest := BlockText(d.blocks, index), TextOf(evs[0], index), TextAt(evs[1..], index);
      assert (before + one) + rest == before + (one + rest);
    }
  }

  lemma OneTextArrives(d: Draft, ev: Event, index: nat, writer: bool, parse: string -> string)
    requires !(ev.ImageBlock? && ev.index == index) && !(ev.ToolUseStart? && ev.index == index)
    ensures BlockText(Absorb(d, ev, writer, parse).blocks, index) == BlockText(d.blocks, index) + TextOf(ev, index)
  {
  }

  // ----- Why the answer ended -----

  /** The reason of the last stop event, or none. */
  predicate IsLastReason(evs: seq<Event>, reason: string) {
    if NoStop(evs, 0) then reason == ""
    else exists k :: 0 <= k < |evs| && evs[k].Stop? && evs[k].reason == reason && NoStop(evs, k + 1)
  }

  predicate NoStop(evs: seq<Event>, from: nat) {
    forall k :: from <= k < |evs| ==> !evs[k].Stop?
  }

  lemma {:induction false} ReasonFolds(d: Draft, evs: seq<Event>, writer: bool, parse: string -> string)
    ensures var stop := AbsorbAll(d, evs, writer, parse).stop;
      if NoStop(evs, 0) then stop == d.stop else IsLastReason(evs, stop)
    decreases |evs|
  {
    if evs != [] {
      var rest := evs[1..];
      ReasonFolds(Absorb(d, evs[0], writer, parse), rest, writer, parse);
      assert forall k :: 1 <= k < |evs| ==> evs[k] == rest[k - 1];
      assert forall k :: 0 <= k < |rest| ==> rest[k] == evs[k + 1];
      var stop := AbsorbAll(d, evs, writer, parse).stop;
      if !NoStop(rest, 0) {
        var k :| 0 <= k < |rest| && rest[k].Stop? && rest[k].reason == stop && NoStop(rest, k + 1);
        assert evs[k + 1].Stop? && evs[k + 1].reason == stop && NoStop(evs, k + 2);
      } else if evs[0].Stop? {
        assert evs[0].reason == stop && NoStop(evs, 1);
      }
    }
  }

  /** The reply's stop reason is that of the last stop event streamed, and empty when there was none. */
  lemma StopReasonArrives(evs: seq<Event>, tokens: nat, writer: bool, parse: string -> string)
    ensures IsLastReason(evs, AbsorbAll(Draft([], map[], "", tokens, false), evs, writer, parse).stop)
  {
    ReasonFolds(Draft([], map[], "", tokens, false), evs, writer, parse);
  }

  // ----- The reported context size -----

  predicate Reports(ev: Event) {
    (ev.Start? || ev.Stop?) && ev.usage.Some?
  }

  function Reported(ev: Event): nat {
    if Reports(ev) then ev.usage.value.input + ev.usage.value.cacheRead + ev.usage.value.cacheCreation else 0
  }

  predicate NoReportingStart(evs: seq<Event>, from: nat) {
    forall k :: from <= k < |evs| && evs[k].Start? ==> !Reports(evs[k])
  }

  /** `size` is the largest of what stood before and what the events from `from` on report. */
  predicate IsPeak(evs: seq<Event>, from: nat, before: nat, size: nat) {
    && before <= size && (forall k :: from <= k < |evs| ==> Reported(evs[k]) <= size)
    && (size == before || exists k :: from <= k < |evs| && Reported(evs[k]) == size)
  }

  lemma PeakCons(evs: seq<Event>, before: nat, size: nat)
    requires evs != [] && IsPeak(evs[1..], 0, if Reported(evs[0]) > before then Reported(evs[0]) else before, size)
    ensures IsPeak(evs, 0, before, size)
  {
    var rest := evs[1..];
    assert forall k :: 1 <= k < |evs| ==> evs[k] == rest[k - 1];
    if k :| 0 <= k < |rest| && Reported(rest[k]) == size {
      assert Reported(evs[k + 1]) == size;
    }
  }

  lemma {:induction false} SizeFolds(d: Draft, evs: seq<Event>, writer: bool, parse: string -> string)
    requires NoReportingStart(evs, 0)
    ensures IsPeak(evs, 0, d.tokens, AbsorbAll(d, evs, writer, parse).tokens)
    decreases |evs|
  {
    if evs != [] {
      assert forall k :: 0 <= k < |evs[1..]| ==> evs[1..][k] == evs[k + 1];
      SizeFolds(Absorb(d, evs[0], writer, parse), evs[1..], writer, parse);
      PeakCons(evs, d.tokens, AbsorbAll(d, evs, writer, parse).tokens);
    }
  }

  /** The context size after a stream: what its last reporting start said, or else the size known before, unless a later
      report was larger. */
  lemma ReportedSizeArrives(d: Draft, evs: seq<Event>, writer: bool, parse: string -> string)
    ensures NoReportingStart(evs, 0) ==> IsPeak(evs, 0, d.tokens, AbsorbAll(d, evs, writer, parse).tokens)
    ensures forall k :: 0 <= k < |evs| && evs[k].Start? && Reports(evs[k]) && NoReportingStart(evs, k + 1) ==>
      IsPeak(evs, k + 1, Reported(evs[k]), AbsorbAll(d, evs, writer, parse).tokens)
  {
    if NoReportingStart(evs, 0) {
      SizeFolds(d, evs, writer, parse);
    }
    forall k | 0 <= k < |evs| && evs[k].Start? && Reports(evs[k]) && NoReportingStart(evs, k + 1)
      ensures IsPeak(evs, k + 1, Reported(evs[k]), AbsorbAll(d, evs, writer, parse).tokens)
    {
      var rest := evs[k + 1..];
      assert evs == evs[..k + 1] + rest && evs[..k + 1] == evs[..k] + [evs[k]];
      var at := AbsorbAll(d, evs[..k], writer, parse);
      AbsorbAppend(d, evs[..k + 1], rest, writer, parse);
      AbsorbAppend(d, evs[..k], [evs[k]], writer, parse);
      AbsorbOne(at, evs[k], writer, parse);
      SizeFolds(Absorb(at, evs[k], writer, parse), rest, writer, parse);
      PeakLater(evs, k + 1, Reported(evs[k]), AbsorbAll(d, evs, writer, parse).tokens);
    }
  }

  lemma PeakLater(evs: seq<Event>, from: nat, before: nat, size: nat)
    requires from <= |evs| && IsPeak(evs[from..], 0, before, size)
    ensures IsPeak(evs, from, before, size)
  {
    var rest := evs[from..];
    assert forall k :: from <= k < |evs| ==> evs[k] == rest[k - from];
    if k :| 0 <= k < |rest| && Reported(rest[k]) == size {
      assert Reported(evs[from + k]) == size;
    }
  }

  // ----- What of the draft is in the reply -----

  /** How many of the first n blocks are in the reply. */
  function KeptBefore(bs: seq<Block>, n: nat): nat
    requires n <= |bs|
  {
    |Cleaned(bs[..n])|
  }

  /** Every block that received something is in the reply, as it is and in its place; the others are not. */
  lemma CleanedKeepsAll(bs: seq<Block>, n: nat)
    requires n < |bs|
    ensures KeptBefore(bs, n) <= |Cleaned(bs)|
    ensures bs[n].typ == Untyped || (bs[n].typ == TextBlock && bs[n].text == "") ==> KeptBefore(bs, n + 1) == KeptBefore(bs, n)
    ensures bs[n].typ != Untyped && (bs[n].typ == TextBlock ==> bs[n].text != "") ==>
      KeptBefore(bs, n + 1) == KeptBefore(bs, n) + 1 <= |Cleaned(bs)| && Cleaned(bs)[KeptBefore(bs, n)] == bs[n]
  {
    assert bs == bs[..n] + [bs[n]] + bs[n + 1..] && bs[..n + 1] == bs[..n] + [bs[n]];
    CleanedAppend(bs[..n], bs[n]);
    CleanedConcat(bs[..n + 1], bs[n + 1..]);
  }

  lemma {:induction false} CleanedConcat(a: seq<Block>, b: seq<Block>)
    ensures Cleaned(a + b) == Cleaned(a) + Cleaned(b)
  {
    if a == [] {
      assert a + b == b;
    } else {
      assert (a + b)[1..] == a[1..] + b;
      CleanedConcat(a[1..], b);
    }
  }

  // ----- Images -----

  /** An image arrives as it was sent, whatever other blocks receive afterwards. */
  lemma ImageArrives(d: Draft, index: nat, source: ImageSource, post: seq<Event>, writer: bool, parse: string -> string)
    requires Silent(post, index)
    ensures var bs := AbsorbAll(d, [ImageBlock(index, source)] + post, writer, parse).blocks;
      index < |bs| && bs[index] == Block(Image, source := Some(source))
  {
    var d1 := Absorb(d, ImageBlock(index, source), writer, parse);
    AbsorbOne(d, ImageBlock(index, source), writer, parse);
    AbsorbAppend(d, [ImageBlock(index, source)], post, writer, parse);
    SilentKeeps(d1, post, index, writer, parse);
  }

  lemma {:induction false} SilentKeeps(d: Draft, post: seq<Event>, index: nat, writer: bool, parse: string -> string)
    requires Silent(post, index) && index < |d.blocks|
    ensures var bs := AbsorbAll(d, post, writer, parse).blocks; index < |bs| && bs[index] == d.blocks[index]
    decreases |post|
  {
    if post != [] {
      SilentKeeps(Absorb(d, post[0], writer, parse), post[1..], index, writer, parse);
    }
  }

  // ----- What the host has seen -----

  /** Every event but the final one sends a frame to the host; notices of retries are not counted here. */
  predicate SendsFrame(ev: Event) {
    !ev.Stop?
  }

  predicate AnyStart(evs: seq<Event>) {
    exists k :: 0 <= k < |evs| && evs[k].Start?
  }

  predicate AnyFrame(evs: seq<Event>) {
    exists k :: 0 <= k < |evs| && SendsFrame(evs[k])
  }

  /** The frame flag tells of start frames only, whatever else the host has been sent. */
  lemma {:induction false} FlagIff(d: Draft, evs: seq<Event>, writer: bool, parse: string -> string)
    ensures AbsorbAll(d, evs, writer, parse).framed <==> d.framed || (writer && AnyStart(evs))
    decreases |evs|
  {
    if evs != [] {
      FlagIff(Absorb(d, evs[0], writer, parse), evs[1..], writer, parse);
      assert AnyStart(evs) <==> evs[0].Start? || AnyStart(evs[1..]) by {
        assert forall k :: 1 <= k < |evs| ==> evs[k] == evs[1..][k - 1];
        assert forall k :: 0 <= k < |evs| - 1 ==> evs[1..][k] == evs[k + 1];
      }
    }
  }

  /** So text that comes before any start reaches the host and leaves the flag unset. */
  lemma TextBeforeStartIsUnnoticed(tokens: nat, parse: string -> string)
    ensures var evs := [TextDelta(0, "hello")];
      AnyFrame(evs) && !AbsorbAll(Draft([], map[], "", tokens, false), evs, true, parse).framed
  {
    var evs := [TextDelta(0, "hello")];
    assert SendsFrame(evs[0]);
    FlagIff(Draft([], map[], "", tokens, false), evs, true, parse);
  }

  // ----- Tool requests -----

  function IndexOf(ev: Event): Option<nat> {
    match ev
    case Start(_) => None
    case Stop(_, _) => None
    case TextDelta(i, _) => Some(i)
    case ThinkingDelta(i, _) => Some(i)
    case ImageBlock(i, _) => Some(i)
    case ToolUseStart(i, _, _) => Some(i)
    case ToolInput(i, _) => Some(i)
    case BlockStop(i) => Some(i)
  }

  /** Arguments streamed to one block, in order. */
  function JsonAt(evs: seq<Event>, index: nat): string {
    if evs == [] then "" else JsonOf(evs[0], index) + JsonAt(evs[1..], index)
  }

  function JsonOf(ev: Event, index: nat): string {
    if ev.ToolInput? && ev.index == index then ev.json else ""
  }

  /** Block `index` holds b, and the arguments collected for it so far are p. */
  predicate Collecting(d: Draft, index: nat, b: Block, p: string) {
    index < |d.blocks| && d.blocks[index] == b && index in d.partial && d.partial[index] == p
  }

  lemma OneEventCollects(d: Draft, ev: Event, index: nat, b: Block, p: string, writer: bool, parse: string -> string)
    requires Collecting(d, index, b, p) && (IndexOf(ev) == Some(index) ==> ev.ToolInput? || ev.ThinkingDelta?)
    ensures Collecting(Absorb(d, ev, writer, parse), index, b, p + JsonOf(ev, index))
  {
    assert p + "" == p;
  }

  lemma {:induction false} EventsCollect(d: Draft, evs: seq<Event>, index: nat, b: Block, p: string,
                                         writer: bool, parse: string -> string)
    requires Collecting(d, index, b, p)
    requires forall k :: 0 <= k < |evs| && IndexOf(evs[k]) == Some(index) ==> evs[k].ToolInput? || evs[k].ThinkingDelta?
    ensures Collecting(AbsorbAll(d, evs, writer, parse), index, b, p + JsonAt(evs, index))
    decreases |evs|
  {
    if evs == [] {
      assert p + "" == p;
    } else {
      OneEventCollects(d, evs[0], index, b, p, writer, parse);
      EventsCollect(Absorb(d, evs[0], writer, parse), evs[1..], index, b, p + JsonOf(evs[0], index), writer, parse);
      assert p + (JsonOf(evs[0], index) + JsonAt(evs[1..], index)) == p + JsonOf(evs[0], index) + JsonAt(evs[1..], index);
    }
  }

  lemma {:induction false} AbsorbAppend(d: Draft, a: seq<Event>, b: seq<Event>, writer: bool, parse: string -> string)
    ensures AbsorbAll(d, a + b, writer, parse) == AbsorbAll(AbsorbAll(d, a, writer, parse), b, writer, parse)
    decreases |a|
  {
    if a == [] {
      assert a + b == b;
    } else {
      assert (a + b)[1..] == a[1..] + b && (a + b)[0] == a[0];
      AbsorbAppend(Absorb(d, a[0], writer, parse), a[1..], b, writer, parse);
    }
  }

  predicate Silent(evs: seq<Event>, index: nat) {
    forall k :: 0 <= k < |evs| ==> IndexOf(evs[k]) != Some(index)
  }

  /** The arguments as one object; none at all are the empty one. */
  function OneObject(json: string, parse: string -> string): string {
    if json == "" then "{}" else parse(json)
  }

  /** A tool request arrives whole: whatever other blocks receive in between and afterwards, its block ends with the
      announced id and name and with all of its argument pieces, in order, parsed as one text. */
  lemma ToolArrivesWhole(d: Draft, index: nat, id: string, name: string, mid: seq<Event>, post: seq<Event>,
                         writer: bool, parse: string -> string)
    requires forall k :: 0 <= k < |mid| && IndexOf(mid[k]) == Some(index) ==> mid[k].ToolInput?
    requires Silent(post, index)
    ensures var bs := AbsorbAll(d, [ToolUseStart(index, id, name)] + mid + [BlockStop(index)] + post, writer, parse).blocks;
      index < |bs|
      && bs[index] == Block(ToolUse, id := id, name := name, input := OneObject(TrimSpace(JsonAt(mid, index)), parse))
  {
    var opening, closing := ToolUseStart(index, id, name), BlockStop(index);
    var d1 := Absorb(d, opening, writer, parse);
    AbsorbOne(d, opening, writer, parse);
    AbsorbAppend(d, [opening], mid, writer, parse);
    EventsCollect(d1, mid, index, Block(ToolUse, id := id, name := name), "", writer, parse);
    assert "" + JsonAt(mid, index) == JsonAt(mid, index);
    var d2 := AbsorbAll(d1, mid, writer, parse);
    var d3 := Absorb(d2, closing, writer, parse);
    AbsorbOne(d2, closing, writer, parse);
    AbsorbAppend(d, [opening] + mid, [closing], writer, parse);
    AbsorbAppend(d, [opening] + mid + [closing], post, writer, parse);
    EventsCollect(d3, post, index, d3.blocks[index], d3.partial[index], writer, parse);
  }

  lemma AbsorbOne(d: Draft, ev: Event, writer: bool, parse: string -> string)
    ensures AbsorbAll(d, [ev], writer, parse) == Absorb(d, ev, writer, parse)
  {
    assert [ev][1..] == [];
  }
}
