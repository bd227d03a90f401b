/** From the frames of one answer to the kernel's reply (app/agentcore/client.go, translateEvent; loop.go, streamTurn). */
module Wire {
  import opened Text
  import opened Messages
  import opened Wrappers
  import opened Client
  import S = Streaming

  /** The content events of a complete answer given to a willing receiver. */
  function Received(lines: seq<Line>): seq<S.Event> {
    Contents(Events(UpToTerminal(lines)))
  }

  lemma EverythingIsReceived(host: Host, lines: seq<Line>, ending: Ending)
    requires Willing(host) && OnlyEvents(lines)
    ensures Contents(Parse(host, Fresh([]), lines, ending).events) == Received(lines)
  {
    EventStreamArrives(host, Fresh([]), lines, ending);
    assert [] + Events(UpToTerminal(lines)) == Events(UpToTerminal(lines));
  }

  predicate Open(lines: seq<Line>) {
    forall k :: 0 <= k < |lines| ==> !TerminalLine(lines[k])
  }

  lemma {:induction false} OpenPrefix(a: seq<Line>, b: seq<Line>)
    requires Open(a)
    ensures UpToTerminal(a + b) == a + UpToTerminal(b) && UpToTerminal(a) == a
  {
    if a == [] {
      assert a + b == b;
    } else {
      assert (a + b)[1..] == a[1..] + b && (a + b)[0] == a[0];
      OpenPrefix(a[1..], b);
    }
  }

  lemma {:induction false} EventsAppend(a: seq<Line>, b: seq<Line>)
    ensures Events(a + b) == Events(a) + Events(b)
  {
    if a == [] {
      assert a + b == b;
    } else {
      assert (a + b)[1..] == a[1..] + b && (a + b)[0] == a[0];
      EventsAppend(a[1..], b);
      var one, rest := LineEvents(a[0]), Events(a[1..]);
      assert one + (rest + Events(b)) == (one + rest) + Events(b);
    }
  }

  lemma ReceivedAppend(a: seq<Line>, b: seq<Line>)
    requires Open(a)
    ensures Received(a + b) == Received(a) + Received(b)
  {
    OpenPrefix(a, b);
    EventsAppend(a, UpToTerminal(b));
    ContentsAppend(Events(a), Events(UpToTerminal(b)));
  }

  lemma ReceivedCons(l: Line, rest: seq<Line>)
    ensures Received([l] + rest) == Contents(LineEvents(l)) + (if TerminalLine(l) then [] else Received(rest))
  {
    var all := [l] + rest;
    assert all[0] == l && all[1..] == rest;
    var tail := if TerminalLine(l) then [] else UpToTerminal(rest);
    assert UpToTerminal(all) == [l] + tail;
    EventsCons(l, tail);
    ContentsAppend(LineEvents(l), Events(tail));
  }

  lemma ReceivedOne(l: Line)
    ensures Received([l]) == Contents(LineEvents(l))
  {
    ReceivedCons(l, []);
    assert [l] + [] == [l];
  }

  function Frames(frame: Frame): Line {
    Data(Some(frame))
  }

  lemma OneContent(ev: S.Event)
    ensures Contents([Content(ev)]) == [ev]
  {
    assert [Content(ev)][1..] == [];
  }

  // ----- Tool requests -----

  /** The argument pieces sent for one block, in order. */
  function WireJson(lines: seq<Line>, index: nat): string {
    if lines == [] then "" else JsonPieceAt(lines[0], index) + WireJson(lines[1..], index)
  }

  function JsonPieceAt(l: Line, index: nat): string {
    if l.Data? && l.frame.Some? && l.frame.value.BlockDelta? && l.frame.value.index == index
       && l.frame.value.delta.Some? && l.frame.value.delta.value.JsonPiece?
    then l.frame.value.delta.value.json
    else ""
  }

  /** What a line sends for one block, if anything. */
  predicate Concerns(l: Line, index: nat) {
    l.Data? && l.frame.Some? &&
    match l.frame.value
    case BlockStart(i, _) => i == index
    case BlockDelta(i, _) => i == index
    case BlockStop(i) => i == index
    case _ => false
  }

  predicate OnlyJsonFor(lines: seq<Line>, index: nat) {
    forall k :: 0 <= k < |lines| && Concerns(lines[k], index) ==>
      lines[k].frame.value.BlockDelta? && lines[k].frame.value.delta.Some? && lines[k].frame.value.delta.value.JsonPiece?
  }

  predicate NothingFor(lines: seq<Line>, index: nat) {
    forall k :: 0 <= k < |lines| ==> !Concerns(lines[k], index)
  }

  predicate OnlyInputAt(evs: seq<S.Event>, index: nat) {
    forall k :: 0 <= k < |evs| && S.IndexOf(evs[k]) == Some(index) ==> evs[k].ToolInput?
  }

  lemma LineForBlock(l: Line, index: nat)
    ensures var evs := Contents(LineEvents(l));
      && |evs| <= 1
      && (!Concerns(l, index) ==> S.Silent(evs, index))
      && (OnlyJsonFor([l], index) ==> OnlyInputAt(evs, index) && S.JsonAt(evs, index) == JsonPieceAt(l, index))
  {
    var es := LineEvents(l);
    if es != [] {
      assert es == [es[0]] && es[1..] == [];
      assert [l][0] == l;
      if es[0].Content? {
        OneContent(es[0].event);
        assert [es[0].event][1..] == [];
      }
    }
  }

  lemma {:induction false} JsonAppend(a: seq<S.Event>, b: seq<S.Event>, index: nat)
    ensures S.JsonAt(a + b, index) == S.JsonAt(a, index) + S.JsonAt(b, index)
  {
    if a == [] {
      assert a + b == b;
    } else {
      assert (a + b)[1..] == a[1..] + b;
      JsonAppend(a[1..], b, index);
      var one, rest := S.JsonOf(a[0], index), S.JsonAt(a[1..], index);
      assert (one + rest) + S.JsonAt(b, index) == one + (rest + S.JsonAt(b, index));
    }
  }

  /** What these lines bring for one block are these arguments, and nothing else. */
  predicate Brings(evs: seq<S.Event>, index: nat, json: string) {
    OnlyInputAt(evs, index) && S.JsonAt(evs, index) == json
  }

  lemma BringsMore(a: seq<S.Event>, b: seq<S.Event>, index: nat, x: string, y: string)
    requires Brings(a, index, x) && Brings(b, index, y)
    ensures Brings(a + b, index, x + y)
  {
    JsonAppend(a, b, index);
  }

  lemma LineBrings(l: Line, index: nat)
    requires Concerns(l, index) ==> OnlyJsonFor([l], index)
    ensures Brings(Contents(LineEvents(l)), index, JsonPieceAt(l, index))
  {
    LineForBlock(l, index);
    assert !Concerns(l, index) ==> OnlyJsonFor([l], index);
  }

  lemma {:induction false} ArgumentsAreReceived(lines: seq<Line>, index: nat)
    requires Open(lines) && OnlyJsonFor(lines, index)
    ensures Brings(Received(lines), index, WireJson(lines, index))
  {
    if lines != [] {
      ArgumentsAreReceived(lines[1..], index);
      assert lines == [lines[0]] + lines[1..];
      ReceivedCons(lines[0], lines[1..]);
      LineBrings(lines[0], index);
      BringsMore(Contents(LineEvents(lines[0])), Received(lines[1..]), index,
                 JsonPieceAt(lines[0], index), WireJson(lines[1..], index));
    }
  }

  lemma {:induction false} NothingIsReceived(lines: seq<Line>, index: nat)
    requires NothingFor(lines, index)
    ensures S.Silent(Received(lines), index)
  {
    if lines != [] {
      NothingIsReceived(lines[1..], index);
      assert lines == [lines[0]] + lines[1..];
      ReceivedCons(lines[0], lines[1..]);
      LineForBlock(lines[0], index);
    }
  }

  /** A tool request sent as a block start, argument pieces and a block stop, whatever is sent for other blocks in between
      and afterwards, is in the kernel's draft with the announced id and name and with all pieces as one argument. */
  lemma ReplyToolIsWireTool(pre: seq<Line>, mid: seq<Line>, post: seq<Line>, index: nat, id: string, name: string,
                            tokens: nat, writer: bool, parse: string -> string)
    requires Open(pre) && Open(mid) && OnlyJsonFor(mid, index) && NothingFor(post, index)
    ensures var lines := pre + [Frames(BlockStart(index, Some(ToolStart(id, name))))] + mid + [Frames(BlockStop(index))] + post;
      var bs := S.AbsorbAll(S.Draft([], map[], "", tokens, false), Received(lines), writer, parse).blocks;
      index < |bs|
      && bs[index] == Block(ToolUse, id := id, name := name, input := S.OneObject(TrimSpace(WireJson(mid, index)), parse))
  {
    var open, close := Frames(BlockStart(index, Some(ToolStart(id, name)))), Frames(BlockStop(index));
    ToolLines(pre, mid, post, index, id, name);
    ArgumentsAreReceived(mid, index);
    NothingIsReceived(post, index);
    var start := S.Draft([], map[], "", tokens, false);
    var d := S.AbsorbAll(start, Received(pre), writer, parse);
    var rest := [S.ToolUseStart(index, id, name)] + Received(mid) + [S.BlockStop(index)] + Received(post);
    S.AbsorbAppend(start, Received(pre), rest, writer, parse);
    S.ToolArrivesWhole(d, index, id, name, Received(mid), Received(post), writer, parse);
  }

  lemma ToolLines(pre: seq<Line>, mid: seq<Line>, post: seq<Line>, index: nat, id: string, name: string)
    requires Open(pre) && Open(mid)
    ensures Received(pre + [Frames(BlockStart(index, Some(ToolStart(id, name))))] + mid + [Frames(BlockStop(index))] + post)
         == Received(pre) + ([S.ToolUseStart(index, id, name)] + Received(mid) + [S.BlockStop(index)] + Received(post))
  {
    var open, close := Frames(BlockStart(index, Some(ToolStart(id, name)))), Frames(BlockStop(index));
    FrameBrings(BlockStart(index, Some(ToolStart(id, name))), S.ToolUseStart(index, id, name));
    FrameBrings(BlockStop(index), S.BlockStop(index));
    FourParts(pre + [open], mid, [close], post);
    ReceivedAppend(pre, [open]);
    Regroup(Received(pre), [S.ToolUseStart(index, id, name)], Received(mid), [S.BlockStop(index)], Received(post));
  }

  lemma FrameBrings(f: Frame, ev: S.Event)
    requires Translate(f) == [Content(ev)]
    ensures Received([Frames(f)]) == [ev]
  {
    ReceivedOne(Frames(f));
    OneContent(ev);
  }

  lemma Regroup<T>(a: seq<T>, b: seq<T>, c: seq<T>, d: seq<T>, e: seq<T>)
    ensures (a + b) + c + d + e == a + (b + c + d + e)
  {
  }

  lemma FourParts(a: seq<Line>, b: seq<Line>, c: seq<Line>, d: seq<Line>)
    requires Open(a) && Open(b) && Open(c)
    ensures Received(a + b + c + d) == Received(a) + Received(b) + Received(c) + Received(d)
  {
    ReceivedAppend(a + b + c, d);
    ReceivedAppend(a + b, c);
    ReceivedAppend(a, b);
  }

  // ----- How the answer ended, and its size -----

  /** The reason in the frame that ends an answer is the reply's stop reason. */
  lemma ReplyReasonIsWireReason(pre: seq<Line>, post: seq<Line>, reason: string, u: Option<S.Usage>, tokens: nat,
                                writer: bool, parse: string -> string)
    requires Open(pre) && TrimSpace(reason) != ""
    ensures var lines := pre + [Frames(MessageDelta(reason, u))] + post;
      S.AbsorbAll(S.Draft([], map[], "", tokens, false), Received(lines), writer, parse).stop == reason
  {
    var last := Frames(MessageDelta(reason, u));
    assert pre + [last] + post == pre + ([last] + post);
    ReceivedAppend(pre, [last] + post);
    ReceivedCons(last, post);
    OneContent(S.Stop(reason, u));
    var evs := Received(pre) + [S.Stop(reason, u)];
    S.AbsorbAppend(S.Draft([], map[], "", tokens, false), Received(pre), [S.Stop(reason, u)], writer, parse);
    S.AbsorbOne(S.AbsorbAll(S.Draft([], map[], "", tokens, false), Received(pre), writer, parse), S.Stop(reason, u), writer, parse);
    assert Received(pre + [last] + post) == evs;
  }

  /** The context size known after an answer is the largest of what its opening and its later frames report. */
  lemma ReplySizeIsWireSize(rest: seq<Line>, u: S.Usage, tokens: nat, writer: bool, parse: string -> string)
    requires S.NoReportingStart(Received(rest), 0)
    ensures var lines := [Frames(MessageStart(Some(u)))] + rest;
      S.IsPeak(Received(rest), 0, u.input + u.cacheRead + u.cacheCreation,
               S.AbsorbAll(S.Draft([], map[], "", tokens, false), Received(lines), writer, parse).tokens)
  {
    var first := Frames(MessageStart(Some(u)));
    ReceivedCons(first, rest);
    OneContent(S.Start(Some(u)));
    var d := S.Draft([], map[], "", tokens, false);
    S.AbsorbAppend(d, [S.Start(Some(u))], Received(rest), writer, parse);
    S.AbsorbOne(d, S.Start(Some(u)), writer, parse);
    S.SizeFolds(S.Absorb(d, S.Start(Some(u)), writer, parse), Received(rest), writer, parse);
  }

  // ----- Images, thinking and errors -----

  /** An image sent for one block is in the kernel's draft, whatever is sent for other blocks afterwards. */
  lemma ReplyImageIsWireImage(pre: seq<Line>, post: seq<Line>, index: nat, source: ImageSource, tokens: nat, writer: bool,
                              parse: string -> string)
    requires Open(pre) && NothingFor(post, index)
    ensures var lines := pre + [Frames(BlockStart(index, Some(ImageStart(Some(source)))))] + post;
      var bs := S.AbsorbAll(S.Draft([], map[], "", tokens, false), Received(lines), writer, parse).blocks;
      index < |bs| && bs[index] == Block(Image, source := Some(source))
  {
    var frame := BlockStart(index, Some(ImageStart(Some(source))));
    FrameBrings(frame, S.ImageBlock(index, source));
    ThreeParts(pre, [Frames(frame)], post);
    NothingIsReceived(post, index);
    var start := S.Draft([], map[], "", tokens, false);
    var d := S.AbsorbAll(start, Received(pre), writer, parse);
    S.AbsorbAppend(start, Received(pre), [S.ImageBlock(index, source)] + Received(post), writer, parse);
    S.ImageArrives(d, index, source, Received(post), writer, parse);
  }

  lemma ThreeParts(a: seq<Line>, b: seq<Line>, c: seq<Line>)
    requires Open(a) && Open(b)
    ensures Received(a + b + c) == Received(a) + (Received(b) + Received(c))
  {
    ReceivedAppend(a + b, c);
    ReceivedAppend(a, b);
    RegroupThree(Received(a), Received(b), Received(c));
  }

  lemma RegroupThree<T>(a: seq<T>, b: seq<T>, c: seq<T>)
    ensures (a + b) + c == a + (b + c)
  {
  }

  /** Thinking passed on for one block, in order. */
  function Thought(evs: seq<S.Event>, index: nat): string {
    if evs == [] then "" else ThoughtOf(evs[0], index) + Thought(evs[1..], index)
  }

  function ThoughtOf(ev: S.Event, index: nat): string {
    if ev.ThinkingDelta? && ev.index == index then ev.text else ""
  }

  /** Thinking sent for one block, in order; some upstreams send it as text. */
  function WireThought(lines: seq<Line>, index: nat): string {
    if lines == [] then "" else ThoughtAt(lines[0], index) + WireThought(lines[1..], index)
  }

  function ThoughtAt(l: Line, index: nat): string {
    if l.Data? && l.frame.Some? && l.frame.value.BlockDelta? && l.frame.value.index == index
       && l.frame.value.delta.Some? && l.frame.value.delta.value.ThinkingPiece?
    then (if l.frame.value.delta.value.thinking == "" then l.frame.value.delta.value.text
          else l.frame.value.delta.value.thinking)
    else ""
  }

  lemma {:induction false} ThoughtAppend(a: seq<S.Event>, b: seq<S.Event>, index: nat)
    ensures Thought(a + b, index) == Thought(a, index) + Thought(b, index)
  {
    if a == [] {
      assert a + b == b;
    } else {
      assert (a + b)[1..] == a[1..] + b;
      ThoughtAppend(a[1..], b, index);
      var one, rest := ThoughtOf(a[0], index), Thought(a[1..], index);
      assert (one + rest) + Thought(b, index) == one + (rest + Thought(b, index));
    }
  }

  lemma LineCarriesItsThought(l: Line, index: nat)
    ensures Thought(Contents(LineEvents(l)), index) == ThoughtAt(l, index)
  {
    var es := LineEvents(l);
    if es != [] {
      assert es == [es[0]] && es[1..] == [];
      if es[0].Content? {
        OneContent(es[0].event);
        assert [es[0].event][1..] == [];
      }
    }
  }

  /** Thinking is passed on whole, whichever field it came in. */
  lemma {:induction false} ThoughtIsWireThought(lines: seq<Line>, index: nat)
    requires Open(lines)
    ensures Thought(Received(lines), index) == WireThought(lines, index)
  {
    if lines != [] {
      ThoughtIsWireThought(lines[1..], index);
      assert lines == [lines[0]] + lines[1..];
      ReceivedCons(lines[0], lines[1..]);
      LineCarriesItsThought(lines[0], index);
      ThoughtAppend(Contents(LineEvents(lines[0])), Received(lines[1..]), index);
    }
  }

  /** Every error frame reaches the receiver as one error, with its message if it has any. */
  lemma ErrorsAreSeen(lines: seq<Line>, k: nat)
    requires k < |lines| && ErrorLine(lines[k])
    ensures var n := |Events(lines[..k])|;
      && n < |Events(lines)| && Events(lines)[n].ErrorEvent?
      && (TrimSpace(lines[k].frame.value.message) != "" ==> Events(lines)[n].message == lines[k].frame.value.message)
      && Events(lines)[n].message != ""
  {
    assert lines == lines[..k] + lines[k..];
    EventsAppend(lines[..k], lines[k..]);
    assert lines[k..][0] == lines[k];
    if TrimSpace(lines[k].frame.value.message) != "" {
      assert lines[k].frame.value.message != "" by {
        assert TrimSpace("") == "";
      }
    }
  }

  // ----- How a body fails -----

  /** A body of events given to a willing receiver fails by the way it ends, unless it is complete. */
  lemma {:induction false} EventStreamFailure(host: Host, r: Reader, lines: seq<Line>, ending: Ending)
    requires Willing(host) && OnlyEvents(lines)
    ensures Parse(host, r, lines, ending).failure ==
      if HasTerminal(lines) then None
      else match ending
        case Eof => if r.terminated || HasError(lines) then None else Some(Unterminated)
        case Stalled => Some(Idle)
        case Broken => Some(Transient)
        case Interrupted => Some(Transient)
    decreases |lines|
  {
    if lines != [] {
      HasStep(lines);
      WillingLine(host, r, lines[0]);
      if !TerminalLine(lines[0]) {
        EventStreamFailure(host, ReadLine(host, r, lines[0]).reader, lines[1..], ending);
      }
    }
  }

  function BareLines(texts: seq<string>): seq<Line> {
    seq(|texts|, i requires 0 <= i < |texts| => Bare(texts[i]))
  }

  function Pasted(texts: seq<string>): string {
    if texts == [] then "" else texts[0] + Pasted(texts[1..])
  }

  /** The lines so far, behind what was read before them, make up an error envelope for the first time. */
  predicate EnvelopeAtLast(host: Host, before: string, texts: seq<string>) {
    texts != [] && host.envelope(before + Pasted(texts)).Some?
    && forall n :: 0 < n < |texts| ==> host.envelope(before + Pasted(texts[..n])).None?
  }

  lemma EnvelopeRest(host: Host, before: string, texts: seq<string>)
    requires |texts| > 1 && EnvelopeAtLast(host, before, texts)
    ensures host.envelope(before + texts[0]).None? && EnvelopeAtLast(host, before + texts[0], texts[1..])
    ensures before + Pasted(texts) == (before + texts[0]) + Pasted(texts[1..])
  {
    PastedFirst(before, texts, 0);
    PastedFirst(before, texts, |texts| - 1);
    assert texts[..|texts|] == texts && texts[1..][..|texts| - 1] == texts[1..];
    forall n | 0 < n < |texts[1..]| ensures host.envelope((before + texts[0]) + Pasted(texts[1..][..n])).None? {
      PastedFirst(before, texts, n);
    }
  }

  lemma PastedFirst(before: string, texts: seq<string>, n: nat)
    requires n < |texts|
    ensures before + Pasted(texts[..n + 1]) == (before + texts[0]) + Pasted(texts[1..][..n])
    ensures n == 0 ==> before + Pasted(texts[..n + 1]) == before + texts[0]
  {
    assert texts[..n + 1][1..] == texts[1..][..n] && texts[..n + 1][0] == texts[0];
    assert before + (texts[0] + Pasted(texts[1..][..n])) == (before + texts[0]) + Pasted(texts[1..][..n]);
  }

  lemma LastLineEnds(host: Host, r: Reader, text: string)
    requires !r.overflow && host.envelope(r.buf + text).Some? && |r.buf + text| <= JSON_ERROR_BODY_MAX_BYTES
    requires r.buf == "" ==> OpensJson(text)
    ensures ReadLine(host, r, Bare(text)) == Stop(Parsed(r.seen, host.envelope(r.buf + text)))
  {
  }

  /** An error envelope is found although it is spread over lines: reading stops with its failure, and with what has been
      seen before. */
  lemma {:induction false} EnvelopeIsFound(host: Host, r: Reader, texts: seq<string>, rest: seq<Line>, ending: Ending)
    requires !r.overflow && EnvelopeAtLast(host, r.buf, texts) && |r.buf + Pasted(texts)| <= JSON_ERROR_BODY_MAX_BYTES
    requires r.buf == "" ==> OpensJson(texts[0])
    ensures Parse(host, r, BareLines(texts) + rest, ending) == Parsed(r.seen, host.envelope(r.buf + Pasted(texts)))
    decreases |texts|
  {
    var lines := BareLines(texts) + rest;
    assert lines[0] == Bare(texts[0]);
    assert lines[1..] == BareLines(texts[1..]) + rest;
    if |texts| == 1 {
      assert texts[1..] == [] && Pasted(texts) == texts[0] + "" == texts[0];
      LastLineEnds(host, r, texts[0]);
    } else {
      EnvelopeRest(host, r.buf, texts);
      EnvelopeIsFound(host, r.(buf := r.buf + texts[0]), texts[1..], rest, ending);
    }
  }

  /** A frame in between starts the search afresh, whatever came before it. */
  lemma EnvelopeAfterFrame(host: Host, r: Reader, f: Frame, texts: seq<string>, rest: seq<Line>, ending: Ending)
    requires Willing(host) && !r.overflow && !Terminal(f)
    requires EnvelopeAtLast(host, "", texts) && |Pasted(texts)| <= JSON_ERROR_BODY_MAX_BYTES && OpensJson(texts[0])
    ensures Parse(host, r, [Frames(f)] + (BareLines(texts) + rest), ending)
         == Parsed(r.seen + Translate(f), host.envelope(Pasted(texts)))
  {
    var lines := [Frames(f)] + (BareLines(texts) + rest);
    assert lines[0] == Frames(f) && lines[1..] == BareLines(texts) + rest;
    var r' := ReadLine(host, r, Frames(f)).reader;
    assert "" + Pasted(texts) == Pasted(texts);
    EnvelopeIsFound(host, r', texts, rest, ending);
  }

  /** Lines that are no frames and do not begin an object are skipped. */
  lemma OtherTextIsSkipped(host: Host, r: Reader, text: string, rest: seq<Line>, ending: Ending)
    requires r.buf == "" && !OpensJson(text)
    ensures Parse(host, r, [Bare(text)] + rest, ending) == Parse(host, r, rest, ending)
  {
    assert ([Bare(text)] + rest)[1..] == rest;
  }

  /** And so is everything bare from where an object gets too long for an envelope. */
  lemma {:induction false} TooLongIsSkipped(host: Host, r: Reader, texts: seq<string>, rest: seq<Line>, ending: Ending)
    requires r.overflow
    ensures Parse(host, r, BareLines(texts) + rest, ending) == Parse(host, r, rest, ending)
    decreases |texts|
  {
    var lines := BareLines(texts) + rest;
    if texts == [] {
      assert lines == rest;
    } else {
      assert lines[0] == Bare(texts[0]) && lines[1..] == BareLines(texts[1..]) + rest;
      TooLongIsSkipped(host, r, texts[1..], rest, ending);
    }
  }

  /** An object is too long exactly from the line on that takes it beyond the limit. */
  lemma TooLongIff(host: Host, r: Reader, text: string)
    requires !r.overflow && (r.buf == "" ==> OpensJson(text))
    ensures var m := ReadLine(host, r, Bare(text));
      && (m.More? && m.reader.overflow <==> |r.buf| + |text| > 4096)
      && (m.More? && !m.reader.overflow ==> m.reader.buf == r.buf + text)
  {
  }
}
