/** The streaming client: reading one server-sent-event body, and retrying whole requests without ever mixing two
    answers (app/agentcore/client.go). */
module Client {
  import opened Text
  import opened Messages
  import opened Wrappers
  import S = Streaming

  const MAX_RETRIES: nat := 5
  const BASE_RETRY_DELAY: nat := 500
  const MAX_RETRY_DELAY: nat := 30_000
  const DEFAULT_MAX_TOKENS: int := 64_000
  const MIN_MAX_TOKENS: int := 8192
  const JSON_ERROR_BODY_MAX_BYTES: nat := 4096

  // ----- What comes over the wire -----

  datatype StartBlock =
    | TextStart | ThinkingStart | ImageStart(source: Option<ImageSource>) | ToolStart(id: string, name: string) | OtherStart

  datatype Delta =
    | TextPiece(text: string) | JsonPiece(json: string) | ThinkingPiece(thinking: string, text: string) | OtherPiece

  datatype Frame =
    | MessageStart(usage: Option<S.Usage>)
    | BlockStart(index: nat, block: Option<StartBlock>)
    | BlockDelta(index: nat, delta: Option<Delta>)
    | BlockStop(index: nat)
    | MessageDelta(reason: string, usage: Option<S.Usage>)
    | MessageStop
    | ErrorFrame(message: string)
    | OtherFrame

  /** A line of the body: a separator or comment, a data line (None when it carries no frame), or anything else,
      trimmed, one character to the byte. */
  datatype Line = Ignored | Data(frame: Option<Frame>) | Bare(text: string)

  /** How reading stopped when no line ended it. */
  datatype Ending = Eof | Broken | Stalled | Interrupted

  datatype ClientEvent = Content(event: S.Event) | ErrorEvent(message: string)

  /** Failures by what decides about retrying; `phrase` says the text blames the output ceiling. */
  datatype Failure =
    | Aborted
    | Http(status: int, phrase: bool, retryAfter: nat)
    | Upstream(kind: string, phrase: bool)
    | Idle
    | Unterminated
    | Transient

  datatype Response =
    | Unreachable | Status(status: int, phrase: bool, retryAfter: nat) | Body(lines: seq<Line>, ending: Ending)

  /** The world around one call: answers by attempt, the receiver's verdict on all events given to it so far, the
      recognizer of error envelopes, and when cancellation is seen. */
  datatype Host = Host(
    responses: nat -> Response, accepts: seq<ClientEvent> -> bool, envelope: string -> Option<Failure>,
    cancelledBefore: nat -> bool, cancelledWaiting: nat -> bool)

  // ----- Reading one body -----

  function Translate(f: Frame): (evs: seq<ClientEvent>)
    ensures |evs| <= 1
  {
    match f
    case MessageStart(u) => [Content(S.Start(u))]
    case BlockStart(i, Some(ImageStart(Some(src)))) => [Content(S.ImageBlock(i, src))]
    case BlockStart(i, Some(ToolStart(id, name))) => [Content(S.ToolUseStart(i, id, name))]
    case BlockDelta(i, Some(TextPiece(t))) => if t == "" then [] else [Content(S.TextDelta(i, t))]
    case BlockDelta(i, Some(JsonPiece(j))) => [Content(S.ToolInput(i, j))]
    case BlockDelta(i, Some(ThinkingPiece(th, t))) =>
      var text := if th == "" then t else th;
      if text == "" then [] else [Content(S.ThinkingDelta(i, text))]
    case BlockStop(i) => [Content(S.BlockStop(i))]
    case MessageDelta(reason, u) => [Content(S.Stop(reason, u))]
    case ErrorFrame(m) => [ErrorEvent(if TrimSpace(m) == "" then "上游返回 error 事件" else m)]
    case _ => []
  }

  /** The frames after which the answer is complete, whatever the connection does next. */
  predicate Terminal(f: Frame) {
    f.MessageStop? || (f.MessageDelta? && TrimSpace(f.reason) != "")
  }

  datatype Reader = Reader(seen: seq<ClientEvent>, buf: string, overflow: bool, terminated: bool)

  datatype Parsed = Parsed(events: seq<ClientEvent>, failure: Option<Failure>)

  function EndFailure(ending: Ending, terminated: bool): Option<Failure> {
    match ending
    case Eof => if terminated then None else Some(Unterminated)
    case Broken => Some(Transient)
    case Stalled => Some(Idle)
    case Interrupted => Some(Transient)
  }

  predicate OpensJson(text: string) {
    text != "" && text[0] == '{'
  }

  /** What one line does: go on reading, or stop with a verdict. */
  datatype Move = More(reader: Reader) | Stop(parsed: Parsed)

  function ReadLine(host: Host, r: Reader, line: Line): Move {
    match line
    case Ignored => More(r)
    case Data(None) => More(r.(buf := ""))
    case Data(Some(f)) =>
      var seen := r.seen + Translate(f);
      if Translate(f) != [] && !host.accepts(seen) then Stop(Parsed(seen, Some(Aborted)))
      else if Terminal(f) then Stop(Parsed(seen, None))
      else More(r.(seen := seen, buf := "", terminated := r.terminated || f.ErrorFrame?))
    case Bare(text) =>
      if r.buf == "" && !OpensJson(text) then More(r)
      else if r.overflow then More(r)
      else if |r.buf| + |text| > JSON_ERROR_BODY_MAX_BYTES then More(r.(overflow := true, buf := ""))
      else if host.envelope(r.buf + text).Some? then Stop(Parsed(r.seen, host.envelope(r.buf + text)))
      else More(r.(buf := r.buf + text))
  }

  function Parse(host: Host, r: Reader, lines: seq<Line>, ending: Ending): Parsed
    decreases |lines|
  {
    if lines == [] then Parsed(r.seen, EndFailure(ending, r.terminated))
    else match ReadLine(host, r, lines[0])
      case Stop(p) => p
      case More(r') => Parse(host, r', lines[1..], ending)
  }

  function Fresh(seen: seq<ClientEvent>): Reader {
    Reader(seen, "", false, false)
  }

  method ParseSse(host: Host, seen: seq<ClientEvent>, lines: seq<Line>, ending: Ending)
    returns (events: seq<ClientEvent>, failure: Option<Failure>)
    ensures Parsed(events, failure) == Parse(host, Fresh(seen), lines, ending)
  {
    var buf, overflow, terminated := "", false, false;
    events := seen;
    for n := 0 to |lines|
      invariant Parse(host, Reader(events, buf, overflow, terminated), lines[n..], ending)
             == Parse(host, Fresh(seen), lines, ending)
    {
      assert lines[n..][0] == lines[n] && lines[n..][1..] == lines[n + 1..];
      ghost var before := Reader(events, buf, overflow, terminated);
      match lines[n] {
        case Ignored =>
        case Data(None) =>
          buf := "";
        case Data(Some(f)) =>
          buf := "";
          var evs := Translate(f);
          events := events + evs;
          if |evs| > 0 && !host.accepts(events) {
            return events, Some(Aborted);
          }
          if f.MessageStop? {
            return events, None;
          }
          if f.MessageDelta? && TrimSpace(f.reason) != "" {
            return events, None;
          }
          if f.ErrorFrame? {
            terminated := true;
          }
        case Bare(text) =>
          if |buf| > 0 || OpensJson(text) {
            if overflow {
            } else if |buf| + |text| > JSON_ERROR_BODY_MAX_BYTES {
              overflow := true;
              buf := "";
            } else {
              buf := buf + text;
              var upErr := host.envelope(buf);
              if upErr.Some? {
                return events, upErr;
              }
            }
          }
      }
      assert ReadLine(host, before, lines[n]) == More(Reader(events, buf, overflow, terminated));
    }
    failure := EndFailure(ending, terminated);
  }

  // ----- What reading means -----

  predicate TerminalLine(l: Line) {
    l.Data? && l.frame.Some? && Terminal(l.frame.value)
  }

  predicate ErrorLine(l: Line) {
    l.Data? && l.frame.Some? && l.frame.value.ErrorFrame?
  }

  /** Nothing after the first terminal frame counts: not more lines, not how the connection ends. */
  lemma {:induction false} TerminalEndsReading(host: Host, r: Reader, lines: seq<Line>, i: nat, more: seq<Line>,
                                               e: Ending, e': Ending)
    requires i < |lines| && TerminalLine(lines[i])
    ensures Parse(host, r, lines[..i + 1] + more, e) == Parse(host, r, lines, e')
    decreases i
  {
    var all := lines[..i + 1] + more;
    assert all[0] == lines[0];
    match ReadLine(host, r, lines[0])
    case Stop(_) =>
    case More(r') =>
      assert i > 0;
      assert all[1..] == lines[1..][..i] + more;
      TerminalEndsReading(host, r', lines[1..], i - 1, more, e, e');
  }

  /** Success is never made up: it takes a terminal frame, or a clean end after an error frame. */
  lemma {:induction false} SuccessNeedsTerminal(host: Host, r: Reader, lines: seq<Line>, ending: Ending)
    requires Parse(host, r, lines, ending).failure == None
    ensures HasTerminal(lines) || (ending == Eof && (r.terminated || HasError(lines)))
    decreases |lines|
  {
    if lines != [] {
      HasStep(lines);
      match ReadLine(host, r, lines[0])
      case Stop(_) =>
      case More(r') => SuccessNeedsTerminal(host, r', lines[1..], ending);
    }
  }

  /** The events of the data lines, in order. */
  function Events(lines: seq<Line>): seq<ClientEvent> {
    if lines == [] then [] else LineEvents(lines[0]) + Events(lines[1..])
  }

  function LineEvents(l: Line): seq<ClientEvent> {
    if l.Data? && l.frame.Some? then Translate(l.frame.value) else []
  }

  /** Lines up to and including the first terminal frame. */
  function UpToTerminal(lines: seq<Line>): seq<Line> {
    if lines == [] then [] else if TerminalLine(lines[0]) then [lines[0]] else [lines[0]] + UpToTerminal(lines[1..])
  }

  lemma LineEventsAreRead(host: Host, r: Reader, l: Line)
    ensures match ReadLine(host, r, l)
      case More(r') => r'.seen == r.seen + LineEvents(l) && !TerminalLine(l)
      case Stop(p) => p.events == r.seen + LineEvents(l)
  {
  }

  function RestEvents(lines: seq<Line>): seq<ClientEvent>
    requires lines != []
  {
    if TerminalLine(lines[0]) then [] else Events(UpToTerminal(lines[1..]))
  }

  lemma EventsStep(seen: seq<ClientEvent>, lines: seq<Line>)
    requires lines != []
    ensures seen + Events(UpToTerminal(lines)) == (seen + LineEvents(lines[0])) + RestEvents(lines)
  {
    var tail := if TerminalLine(lines[0]) then [] else UpToTerminal(lines[1..]);
    assert UpToTerminal(lines) == [lines[0]] + tail;
    EventsCons(lines[0], tail);
    assert seen + (LineEvents(lines[0]) + Events(tail)) == (seen + LineEvents(lines[0])) + Events(tail);
  }

  lemma EventsCons(l: Line, tail: seq<Line>)
    ensures Events([l] + tail) == LineEvents(l) + Events(tail)
  {
    assert ([l] + tail)[1..] == tail;
  }

  /** Whatever happens, the receiver sees a prefix of the events up to the first terminal frame, in order. */
  lemma {:induction false} EventsArePrefix(host: Host, r: Reader, lines: seq<Line>, ending: Ending)
    ensures Parse(host, r, lines, ending).events <= r.seen + Events(UpToTerminal(lines))
    ensures r.seen <= Parse(host, r, lines, ending).events
    decreases |lines|
  {
    if lines != [] {
      EventsStep(r.seen, lines);
      LineEventsAreRead(host, r, lines[0]);
      match ReadLine(host, r, lines[0])
      case Stop(_) =>
      case More(r') => EventsArePrefix(host, r', lines[1..], ending);
    }
  }

  ghost predicate Willing(host: Host) {
    forall evs :: host.accepts(evs)
  }

  predicate OnlyEvents(lines: seq<Line>) {
    forall i :: 0 <= i < |lines| ==> !lines[i].Bare?
  }

  lemma WillingLine(host: Host, r: Reader, l: Line)
    requires Willing(host) && !l.Bare?
    ensures var m := ReadLine(host, r, l);
      if TerminalLine(l) then m == Stop(Parsed(r.seen + LineEvents(l), None))
      else m.More? && m.reader.seen == r.seen + LineEvents(l) && (m.reader.terminated <==> r.terminated || ErrorLine(l))
  {
  }

  /** Of an event stream given to a willing receiver all of it arrives, up to the first terminal frame. */
  lemma {:induction false} EventStreamArrives(host: Host, r: Reader, lines: seq<Line>, ending: Ending)
    requires Willing(host) && OnlyEvents(lines)
    ensures Parse(host, r, lines, ending).events == r.seen + Events(UpToTerminal(lines))
    decreases |lines|
  {
    if lines != [] {
      EventsStep(r.seen, lines);
      WillingLine(host, r, lines[0]);
      if !TerminalLine(lines[0]) {
        EventStreamArrives(host, ReadLine(host, r, lines[0]).reader, lines[1..], ending);
      }
    }
  }

  predicate HasTerminal(lines: seq<Line>) {
    exists i :: 0 <= i < |lines| && TerminalLine(lines[i])
  }

  predicate HasError(lines: seq<Line>) {
    exists i :: 0 <= i < |lines| && ErrorLine(lines[i])
  }

  lemma HasStep(lines: seq<Line>)
    requires lines != []
    ensures HasTerminal(lines) <==> TerminalLine(lines[0]) || HasTerminal(lines[1..])
    ensures HasError(lines) <==> ErrorLine(lines[0]) || HasError(lines[1..])
  {
    assert forall i :: 0 <= i < |lines[1..]| ==> lines[1..][i] == lines[i + 1];
    assert forall i :: 1 <= i < |lines| ==> lines[i] == lines[1..][i - 1];
  }

  /** And it succeeds exactly when a terminal frame came, or the body ended cleanly after an error frame. */
  lemma {:induction false} EventStreamIff(host: Host, r: Reader, lines: seq<Line>, ending: Ending)
    requires Willing(host) && OnlyEvents(lines)
    ensures Parse(host, r, lines, ending).failure == None
       <==> HasTerminal(lines) || (ending == Eof && (r.terminated || HasError(lines)))
    decreases |lines|
  {
    if lines != [] {
      HasStep(lines);
      WillingLine(host, r, lines[0]);
      if !TerminalLine(lines[0]) {
        EventStreamIff(host, ReadLine(host, r, lines[0]).reader, lines[1..], ending);
      }
    }
  }

  // ----- From the wire to the reply -----

  /** The content events among those delivered. */
  function Contents(evs: seq<ClientEvent>): seq<S.Event> {
    if evs == [] then [] else ContentOf(evs[0]) + Contents(evs[1..])
  }

  function ContentOf(ev: ClientEvent): seq<S.Event> {
    if ev.Content? then [ev.event] else []
  }

  /** The text pieces sent for one block, in order. */
  function WireText(lines: seq<Line>, index: nat): string {
    if lines == [] then "" else PieceAt(lines[0], index) + WireText(lines[1..], index)
  }

  function PieceAt(l: Line, index: nat): string {
    if l.Data? && l.frame.Some? && l.frame.value.BlockDelta? && l.frame.value.index == index
       && l.frame.value.delta.Some? && l.frame.value.delta.value.TextPiece?
    then l.frame.value.delta.value.text
    else ""
  }

  lemma {:induction false} ContentsAppend(a: seq<ClientEvent>, b: seq<ClientEvent>)
    ensures Contents(a + b) == Contents(a) + Contents(b)
  {
    if a == [] {
      assert a + b == b;
    } else {
      assert (a + b)[1..] == a[1..] + b && (a + b)[0] == a[0];
      ContentsAppend(a[1..], b);
      var one, rest := ContentOf(a[0]), Contents(a[1..]);
      assert one + (rest + Contents(b)) == (one + rest) + Contents(b);
    }
  }

  lemma {:induction false} TextAtAppend(a: seq<S.Event>, b: seq<S.Event>, index: nat)
    ensures S.TextAt(a + b, index) == S.TextAt(a, index) + S.TextAt(b, index)
  {
    if a == [] {
      assert a + b == b;
    } else {
      assert (a + b)[1..] == a[1..] + b;
      TextAtAppend(a[1..], b, index);
      var one, rest := S.TextOf(a[0], index), S.TextAt(a[1..], index);
      assert (one + rest) + S.TextAt(b, index) == one + (rest + S.TextAt(b, index));
    }
  }

  lemma LineCarriesItsText(l: Line, index: nat)
    ensures S.TextAt(Contents(LineEvents(l)), index) == PieceAt(l, index)
  {
    var evs := LineEvents(l);
    if evs != [] {
      assert evs[1..] == [];
      var cs := Contents(evs);
      if evs[0].Content? {
        assert cs == [evs[0].event] && cs[1..] == [];
      }
    }
  }

  lemma {:induction false} EventsCarryTheText(lines: seq<Line>, index: nat)
    ensures S.TextAt(Contents(Events(lines)), index) == WireText(lines, index)
  {
    if lines != [] {
      EventsCarryTheText(lines[1..], index);
      ContentsAppend(LineEvents(lines[0]), Events(lines[1..]));
      TextAtAppend(Contents(LineEvents(lines[0])), Contents(Events(lines[1..])), index);
      LineCarriesItsText(lines[0], index);
    }
  }

  /** The text block the kernel puts together from a streamed answer is the text that was sent for it, piece by piece
      up to the first terminal frame, whatever else the stream carried. */
  lemma ReplyTextIsWireText(host: Host, lines: seq<Line>, ending: Ending, index: nat, tokens: nat, writer: bool,
                            parse: string -> string)
    requires Willing(host) && OnlyEvents(lines)
    requires S.OnlyTextAt(Contents(Parse(host, Fresh([]), lines, ending).events), index)
    ensures var evs := Contents(Parse(host, Fresh([]), lines, ending).events);
      S.BlockText(S.AbsorbAll(S.Draft([], map[], "", tokens, false), evs, writer, parse).blocks, index)
      == WireText(UpToTerminal(lines), index)
  {
    var evs := Contents(Parse(host, Fresh([]), lines, ending).events);
    EventStreamArrives(host, Fresh([]), lines, ending);
    assert [] + Events(UpToTerminal(lines)) == Events(UpToTerminal(lines));
    EventsCarryTheText(UpToTerminal(lines), index);
    S.TextArrivesWhole(S.Draft([], map[], "", tokens, false), evs, index, writer, parse);
    assert "" + S.TextAt(evs, index) == S.TextAt(evs, index);
  }

  // ----- Retrying -----

  predicate Retryable(f: Failure) {
    match f
    case Idle => false
    case Http(status, _, _) => status == 429 || status >= 500
    case Upstream(kind, _) =>
      TrimSpace(kind) in ["rate_limit_error", "overloaded_error", "api_error", "server_error", "timeout_error"]
    case _ => true
  }

  predicate BlamesMaxTokens(f: Failure) {
    match f
    case Http(status, phrase, _) => (status == 400 || status == 422) && phrase
    case Upstream(kind, phrase) => TrimSpace(kind) !in ["rate_limit_error", "overloaded_error"] && phrase
    case _ => false
  }

  predicate Reduces(f: Failure, tokens: int) {
    tokens > MIN_MAX_TOKENS && BlamesMaxTokens(f)
  }

  function Reduced(tokens: int): int {
    if tokens / 2 < MIN_MAX_TOKENS then MIN_MAX_TOKENS else tokens / 2
  }

  function NextTokens(f: Failure, tokens: int): int {
    if Reduces(f, tokens) then Reduced(tokens) else tokens
  }

  predicate WorthAnother(f: Failure, tokens: int) {
    !f.Aborted? && (Reduces(f, tokens) || Retryable(f))
  }

  function Pow2(n: nat): nat {
    if n == 0 then 1 else 2 * Pow2(n - 1)
  }

  function RetryDelay(attempt: nat, f: Failure): nat
    requires attempt > 0
  {
    var delay := if f.Http? && f.retryAfter > 0 then f.retryAfter else BASE_RETRY_DELAY * Pow2(attempt - 1);
    if delay > MAX_RETRY_DELAY then MAX_RETRY_DELAY else delay
  }

  datatype Notice = Notice(attempt: nat, delay: nat, status: int, kind: string)

  function NoticeOf(attempt: nat, f: Failure): Notice
    requires attempt > 0
  {
    var delay := RetryDelay(attempt, f);
    match f
    case Http(status, _, _) =>
      Notice(attempt, delay, status,
             if status == 429 then "rate_limit_error" else if status >= 500 then "server_error" else "invalid_request_error")
    case Upstream(kind, _) => Notice(attempt, delay, 0, if TrimSpace(kind) != "" then TrimSpace(kind) else "connection_error")
    case _ => Notice(attempt, delay, 0, "connection_error")
  }

  /** One attempt, given what the receiver has already seen. */
  function Attempt(host: Host, k: nat, seen: seq<ClientEvent>): Parsed {
    match host.responses(k)
    case Unreachable => Parsed(seen, Some(Transient))
    case Status(status, phrase, retryAfter) => Parsed(seen, Some(Http(status, phrase, retryAfter)))
    case Body(lines, ending) => Parse(host, Fresh(seen), lines, ending)
  }

  method StreamOnce(host: Host, k: nat, seen: seq<ClientEvent>) returns (events: seq<ClientEvent>, failure: Option<Failure>)
    ensures Parsed(events, failure) == Attempt(host, k, seen)
  {
    match host.responses(k) {
      case Unreachable => events, failure := seen, Some(Transient);
      case Status(status, phrase, retryAfter) => events, failure := seen, Some(Http(status, phrase, retryAfter));
      case Body(lines, ending) => events, failure := ParseSse(host, seen, lines, ending);
    }
  }

  datatype Outcome = Ok | NoBaseUrl | Cancelled | Failed(failure: Failure) | Exhausted(failure: Failure)

  /** Attempt k came to nothing the receiver saw, and was worth another. */
  predicate Retried(host: Host, k: nat, tokens: int) {
    var p := Attempt(host, k, []);
    p.events == [] && p.failure.Some? && WorthAnother(p.failure.value, tokens)
  }

  /** `sent` lists the output ceilings of the attempts made: each follows from the failure before it. */
  predicate Chain(host: Host, sent: seq<int>) {
    forall k :: 0 <= k < |sent| - 1 ==>
      Retried(host, k, sent[k]) && sent[k + 1] == NextTokens(Attempt(host, k, []).failure.value, sent[k])
  }

  /** Announcement n speaks of retry n + 1 and of the failure that caused it. */
  predicate Announced(host: Host, notices: seq<Notice>) {
    forall n :: 0 <= n < |notices| ==>
      Attempt(host, n, []).failure.Some? && notices[n] == NoticeOf(n + 1, Attempt(host, n, []).failure.value)
  }

  predicate Slept(notices: seq<Notice>, waits: seq<nat>) {
    |waits| <= |notices| && forall n :: 0 <= n < |waits| ==> waits[n] == notices[n].delay
  }

  function StartTokens(requested: int): int {
    if requested <= 0 then DEFAULT_MAX_TOKENS else requested
  }

  /** What holds before attempt number `attempt`: all so far were retried, for `lastErr` most recently. */
  predicate Underway(host: Host, requested: int, attempt: nat, sent: seq<int>, maxTokens: int, lastErr: Failure,
                     notices: seq<Notice>, waits: seq<nat>)
  {
    && attempt <= MAX_RETRIES + 1 && |sent| == attempt && Chain(host, sent)
    && (if sent == [] then maxTokens == StartTokens(requested)
        else sent[0] == StartTokens(requested)
             && Retried(host, attempt - 1, sent[attempt - 1])
             && Attempt(host, attempt - 1, []).failure == Some(lastErr)
             && maxTokens == NextTokens(lastErr, sent[attempt - 1]))
    && Announced(host, notices) && |notices| == (if attempt <= MAX_RETRIES then attempt else MAX_RETRIES)
    && Slept(notices, waits) && |waits| == (if attempt == 0 then 0 else attempt - 1)
  }

  /** What a call promises. Everything the receiver sees comes from one attempt, the last one made; every earlier
      attempt showed nothing and failed in a way worth retrying; the call ends as its last attempt did, and only when
      that one showed something, was not worth another, or was the sixth; each retry was announced with its delay. */
  predicate Promised(host: Host, requested: int, outcome: Outcome, sent: seq<int>, events: seq<ClientEvent>,
                     notices: seq<Notice>, waits: seq<nat>)
  {
    var last := |sent| - 1;
    && |sent| <= 1 + MAX_RETRIES && Chain(host, sent) && (sent != [] ==> sent[0] == StartTokens(requested))
    && events == (if sent == [] then [] else Attempt(host, last, []).events)
    && (outcome.NoBaseUrl? || outcome.Cancelled? || sent != [])
    && (outcome.Ok? ==> Attempt(host, last, []).failure == None)
    && (outcome.Failed? ==> Attempt(host, last, []).failure == Some(outcome.failure) && !Retried(host, last, sent[last]))
    && (outcome.Exhausted? ==> Attempt(host, last, []).failure == Some(outcome.failure) && Retried(host, last, sent[last])
                               && |sent| == 1 + MAX_RETRIES)
    && (outcome.Cancelled? ==> |sent| <= MAX_RETRIES && (sent != [] ==> Retried(host, last, sent[last]))
                               && (host.cancelledBefore(|sent|) || (sent != [] && host.cancelledWaiting(|sent|))))
    && Announced(host, notices) && Slept(notices, waits)
    && |notices| == (if outcome.Cancelled? then |sent| else if sent == [] then 0 else last)
    && |waits| == (if sent == [] then 0 else last)
  }

  lemma ChainGrows(host: Host, sent: seq<int>, tokens: int)
    requires Chain(host, sent)
    requires sent != [] ==> Retried(host, |sent| - 1, sent[|sent| - 1])
    requires sent != [] ==> tokens == NextTokens(Attempt(host, |sent| - 1, []).failure.value, sent[|sent| - 1])
    ensures Chain(host, sent + [tokens])
  {
  }

  lemma AnnouncedGrows(host: Host, notices: seq<Notice>, err: Failure)
    requires Announced(host, notices) && Attempt(host, |notices|, []).failure == Some(err)
    ensures Announced(host, notices + [NoticeOf(|notices| + 1, err)])
  {
  }

  lemma SleptGrows(host: Host, notices: seq<Notice>, waits: seq<nat>, prev: Failure, more: seq<Notice>)
    requires Announced(host, notices) && Slept(notices, waits) && |notices| == |waits| + 1
    requires Attempt(host, |waits|, []).failure == Some(prev)
    ensures Slept(notices + more, waits + [RetryDelay(|waits| + 1, prev)])
  {
    assert notices[|waits|] == NoticeOf(|waits| + 1, prev);
  }

  lemma GoesOn(host: Host, requested: int, k: nat, sent: seq<int>, tokens: int, err: Failure, prev: Failure,
               notices: seq<Notice>, before: seq<nat>, waits: seq<nat>)
    requires Underway(host, requested, k, sent, tokens, prev, notices, before) && k <= MAX_RETRIES
    requires waits == if k == 0 then before else before + [RetryDelay(k, prev)]
    requires Attempt(host, k, []) == Parsed([], Some(err)) && WorthAnother(err, tokens)
    ensures Underway(host, requested, k + 1, sent + [tokens], NextTokens(err, tokens), err,
                     if k < MAX_RETRIES then notices + [NoticeOf(k + 1, err)] else notices, waits)
  {
    ChainGrows(host, sent, tokens);
    var more := if k < MAX_RETRIES then [NoticeOf(k + 1, err)] else [];
    if k > 0 {
      SleptGrows(host, notices, before, prev, more);
    }
    if k < MAX_RETRIES {
      AnnouncedGrows(host, notices, err);
    } else {
      assert notices + more == notices;
    }
  }

  lemma Ends(host: Host, requested: int, k: nat, sent: seq<int>, tokens: int, prev: Failure,
             notices: seq<Notice>, before: seq<nat>, waits: seq<nat>, outcome: Outcome)
    requires Underway(host, requested, k, sent, tokens, prev, notices, before) && k <= MAX_RETRIES
    requires waits == if k == 0 then before else before + [RetryDelay(k, prev)]
    requires var p := Attempt(host, k, []);
      || (outcome.Ok? && p.failure == None)
      || (outcome.Failed? && p.failure == Some(outcome.failure) && !Retried(host, k, tokens))
    ensures Promised(host, requested, outcome, sent + [tokens], Attempt(host, k, []).events, notices, waits)
  {
    ChainGrows(host, sent, tokens);
    if k > 0 {
      SleptGrows(host, notices, before, prev, []);
      assert notices + [] == notices;
    }
  }

  lemma IsCancelled(host: Host, requested: int, k: nat, sent: seq<int>, tokens: int, prev: Failure,
                    notices: seq<Notice>, waits: seq<nat>)
    requires Underway(host, requested, k, sent, tokens, prev, notices, waits) && k <= MAX_RETRIES
    requires host.cancelledBefore(k) || (k > 0 && host.cancelledWaiting(k))
    ensures Promised(host, requested, Cancelled, sent, [], notices, waits)
  {
  }

  method Stream(host: Host, baseURL: string, requested: int)
    returns (outcome: Outcome, sent: seq<int>, events: seq<ClientEvent>, notices: seq<Notice>, waits: seq<nat>)
    ensures outcome.NoBaseUrl? <==> baseURL == ""
    ensures baseURL == "" ==> sent == []
    ensures Promised(host, requested, outcome, sent, events, notices, waits)
  {
    sent, events, notices, waits := [], [], [], [];
    if baseURL == "" {
      return NoBaseUrl, sent, events, notices, waits;
    }
    var maxTokens := StartTokens(requested);
    var lastErr := Transient;
    var attempt := 0;
    while attempt <= MAX_RETRIES
      invariant events == [] && Underway(host, requested, attempt, sent, maxTokens, lastErr, notices, waits)
    {
      ghost var before := waits;
      if host.cancelledBefore(attempt) {
        IsCancelled(host, requested, attempt, sent, maxTokens, lastErr, notices, waits);
        return Cancelled, sent, events, notices, waits;
      }
      if attempt > 0 {
        var delay := RetryDelay(attempt, lastErr);
        if host.cancelledWaiting(attempt) {
          IsCancelled(host, requested, attempt, sent, maxTokens, lastErr, notices, waits);
          return Cancelled, sent, events, notices, waits;
        }
        waits := waits + [delay];
      }
      var seen, failure := StreamOnce(host, attempt, events);
      if failure.None? {
        Ends(host, requested, attempt, sent, maxTokens, lastErr, notices, before, waits, Ok);
        return Ok, sent + [maxTokens], seen, notices, waits;
      }
      var err := failure.value;
      if err.Aborted? || |seen| > 0 || (!Reduces(err, maxTokens) && !Retryable(err)) {
        Ends(host, requested, attempt, sent, maxTokens, lastErr, notices, before, waits, Failed(err));
        return Failed(err), sent + [maxTokens], seen, notices, waits;
      }
      GoesOn(host, requested, attempt, sent, maxTokens, err, lastErr, notices, before, waits);
      sent := sent + [maxTokens];
      if Reduces(err, maxTokens) {
        maxTokens := Reduced(maxTokens);
      }
      if attempt + 1 <= MAX_RETRIES {
        notices := notices + [NoticeOf(attempt + 1, err)];
      }
      lastErr := err;
      attempt := attempt + 1;
    }
    outcome := Exhausted(lastErr);
  }

  // ----- What the retries add up to -----

  /** The ceiling never rises, and never falls below the smaller of its start and 8192. */
  lemma {:induction false} CeilingFalls(host: Host, sent: seq<int>, i: nat, j: nat)
    requires Chain(host, sent) && i <= j < |sent|
    ensures sent[j] <= sent[i]
    ensures sent[j] >= if sent[i] < MIN_MAX_TOKENS then sent[i] else MIN_MAX_TOKENS
    decreases j
  {
    if i < j {
      CeilingFalls(host, sent, i, j - 1);
      assert sent[j - 1 + 1] == NextTokens(Attempt(host, j - 1, []).failure.value, sent[j - 1]);
    }
  }

  /** A text that can only be retried at a lower ceiling is retried at a strictly lower one. */
  lemma BlamedCeilingDrops(host: Host, sent: seq<int>, k: nat)
    requires Chain(host, sent) && k + 1 < |sent|
    requires Attempt(host, k, []).failure.Some? && !Retryable(Attempt(host, k, []).failure.value)
    ensures sent[k + 1] < sent[k] && sent[k + 1] >= MIN_MAX_TOKENS
  {
    assert Retried(host, k, sent[k]);
  }

  function Sum(waits: seq<nat>): nat {
    if waits == [] then 0 else waits[|waits| - 1] + Sum(waits[..|waits| - 1])
  }

  lemma DelayIsCapped(attempt: nat, f: Failure)
    requires attempt > 0
    ensures RetryDelay(attempt, f) <= MAX_RETRY_DELAY
    ensures f.Http? && f.retryAfter > 0 ==> RetryDelay(attempt, f) <= f.retryAfter
    ensures !(f.Http? && f.retryAfter > 0) ==> RetryDelay(attempt, f) <= BASE_RETRY_DELAY * Pow2(attempt - 1)
  {
  }

  /** The answer to attempt k came with a Retry-After. */
  predicate NamesDelay(host: Host, k: nat) {
    var p := Attempt(host, k, []);
    p.failure.Some? && p.failure.value.Http? && p.failure.value.retryAfter > 0
  }

  /** All waiting of one call together: thirty seconds a retry at most, and without any Retry-After no more than the
      doubling half seconds, fifteen and a half seconds in all. */
  lemma {:induction false} WaitingIsBounded(host: Host, notices: seq<Notice>, waits: seq<nat>, n: nat)
    requires Announced(host, notices) && Slept(notices, waits) && n <= |waits|
    ensures Sum(waits[..n]) <= MAX_RETRY_DELAY * n
    ensures (forall k :: 0 <= k < n ==> !NamesDelay(host, k)) ==> Sum(waits[..n]) <= BASE_RETRY_DELAY * (Pow2(n) - 1)
  {
    if n > 0 {
      WaitingIsBounded(host, notices, waits, n - 1);
      assert waits[..n][..n - 1] == waits[..n - 1];
      assert notices[n - 1] == NoticeOf(n - 1 + 1, Attempt(host, n - 1, []).failure.value);
      var f := Attempt(host, n - 1, []).failure.value;
      DelayIsCapped(n, f);
      assert waits[n - 1] == RetryDelay(n, f);
      assert NamesDelay(host, n - 1) <==> f.Http? && f.retryAfter > 0;
      assert Pow2(n) == 2 * Pow2(n - 1);
    }
  }

  lemma FiveDoublings()
    ensures BASE_RETRY_DELAY * (Pow2(MAX_RETRIES) - 1) == 15_500
  {
    assert Pow2(5) == 2 * Pow2(4) == 4 * Pow2(3) == 8 * Pow2(2) == 16 * Pow2(1) == 32 * Pow2(0);
  }

  lemma {:induction false} PowGrows(a: nat, b: nat)
    requires a <= b
    ensures Pow2(a) <= Pow2(b)
    decreases b
  {
    if a < b {
      PowGrows(a, b - 1);
    }
  }

  /** No call waits longer than two and a half minutes between its attempts, and none that was never told how long to
      wait longer than fifteen and a half seconds. */
  lemma CallWaitsBounded(host: Host, requested: int, outcome: Outcome, sent: seq<int>, events: seq<ClientEvent>,
                         notices: seq<Notice>, waits: seq<nat>)
    requires Promised(host, requested, outcome, sent, events, notices, waits)
    ensures Sum(waits) <= 150_000
    ensures (forall k :: 0 <= k < |waits| ==> !NamesDelay(host, k)) ==> Sum(waits) <= 15_500
  {
    FewWaitsBounded(host, notices, waits);
  }

  lemma FewWaitsBounded(host: Host, notices: seq<Notice>, waits: seq<nat>)
    requires Announced(host, notices) && Slept(notices, waits) && |waits| <= MAX_RETRIES
    ensures Sum(waits) <= 150_000
    ensures (forall k :: 0 <= k < |waits| ==> !NamesDelay(host, k)) ==> Sum(waits) <= 15_500
  {
    var n := |waits|;
    assert waits[..n] == waits;
    WaitingIsBounded(host, notices, waits, n);
    PowGrows(n, MAX_RETRIES);
    FiveDoublings();
  }
}
