/** Cache breakpoints: marking a request that shares its slices with the history (app/agentcore/cache.go). */
module Cache {
  import opened Text
  import opened Messages

  datatype SystemBlock = SystemBlock(text: string, cached: bool)

  datatype System = SystemText(text: string) | SystemBlocks(blocks: seq<SystemBlock>) | SystemOther

  datatype ToolDef = ToolDef(name: string, description: string, schema: string, cached: bool)

  /** The part of a request that breakpoints can touch. */
  datatype Marked = Marked(tools: seq<ToolDef>, system: System, messages: seq<Message>)

  // ----- What marking means -----

  function MarkTools(tools: seq<ToolDef>): seq<ToolDef> {
    if tools == [] then tools else tools[|tools| - 1 := tools[|tools| - 1].(cached := true)]
  }

  function MarkSystem(s: System): System {
    match s
    case SystemText(t) => if TrimSpace(t) != "" then SystemBlocks([SystemBlock(t, true)]) else s
    case SystemBlocks(bs) => if bs == [] then s else SystemBlocks(bs[|bs| - 1 := bs[|bs| - 1].(cached := true)])
    case SystemOther => s
  }

  function MarkContent(c: Content): Content {
    match c
    case Str(s) => if TrimSpace(s) != "" then Blocks([Block(TextBlock, text := s, cached := true)]) else c
    case Blocks(bs) => if bs == [] then c else Blocks(bs[|bs| - 1 := bs[|bs| - 1].(cached := true)])
    case _ => c
  }

  function MarkMessages(ms: seq<Message>): seq<Message> {
    if ms == [] then ms else ms[|ms| - 1 := ms[|ms| - 1].(content := MarkContent(ms[|ms| - 1].content))]
  }

  function Mark(r: Marked): Marked {
    Marked(MarkTools(r.tools), MarkSystem(r.system), MarkMessages(r.messages))
  }

  // ----- Marks and text -----

  function BlockMarks(bs: seq<Block>): nat {
    if bs == [] then 0 else (if bs[0].cached then 1 else 0) + BlockMarks(bs[1..])
  }

  function MessageMarks(m: Message): nat {
    if m.content.Blocks? then BlockMarks(m.content.blocks) else 0
  }

  function Marks(ms: seq<Message>): nat {
    if ms == [] then 0 else MessageMarks(ms[0]) + Marks(ms[1..])
  }

  function ToolMarks(ts: seq<ToolDef>): nat {
    if ts == [] then 0 else (if ts[0].cached then 1 else 0) + ToolMarks(ts[1..])
  }

  function SystemMarks(s: System): nat {
    if s.SystemBlocks? then SystemBlockMarks(s.blocks) else 0
  }

  function SystemBlockMarks(bs: seq<SystemBlock>): nat {
    if bs == [] then 0 else (if bs[0].cached then 1 else 0) + SystemBlockMarks(bs[1..])
  }

  function BlockTexts(bs: seq<Block>): seq<string> {
    seq(|bs|, i requires 0 <= i < |bs| => bs[i].text)
  }

  /** The texts of a message, a plain string being its one text. */
  function Texts(m: Message): seq<string> {
    match m.content
    case Str(s) => [s]
    case Blocks(bs) => BlockTexts(bs)
    case _ => []
  }

  function SystemTexts(s: System): seq<string> {
    match s
    case SystemText(t) => [t]
    case SystemBlocks(bs) => seq(|bs|, i requires 0 <= i < |bs| => bs[i].text)
    case SystemOther => []
  }

  predicate Unmarked(ms: seq<Message>) {
    forall i :: 0 <= i < |ms| ==> MessageMarks(ms[i]) == 0
  }

  lemma {:induction false} BlockMarksUpdate(bs: seq<Block>, k: nat, b: Block)
    requires k < |bs|
    ensures BlockMarks(bs[k := b]) + (if bs[k].cached then 1 else 0) == BlockMarks(bs) + (if b.cached then 1 else 0)
  {
    var g := bs[k := b];
    if k > 0 {
      BlockMarksUpdate(bs[1..], k - 1, b);
      assert g[1..] == bs[1..][k - 1 := b];
    }
  }

  lemma {:induction false} MarksUpdate(ms: seq<Message>, k: nat, m: Message)
    requires k < |ms|
    ensures Marks(ms[k := m]) + MessageMarks(ms[k]) == Marks(ms) + MessageMarks(m)
  {
    var g := ms[k := m];
    if k > 0 {
      MarksUpdate(ms[1..], k - 1, m);
      assert g[1..] == ms[1..][k - 1 := m];
    }
  }

  lemma {:induction false} ToolMarksUpdate(ts: seq<ToolDef>, k: nat, t: ToolDef)
    requires k < |ts|
    ensures ToolMarks(ts[k := t]) + (if ts[k].cached then 1 else 0) == ToolMarks(ts) + (if t.cached then 1 else 0)
  {
    var g := ts[k := t];
    if k > 0 {
      ToolMarksUpdate(ts[1..], k - 1, t);
      assert g[1..] == ts[1..][k - 1 := t];
    }
  }

  lemma {:induction false} SystemMarksUpdate(bs: seq<SystemBlock>, k: nat, b: SystemBlock)
    requires k < |bs|
    ensures SystemBlockMarks(bs[k := b]) + (if bs[k].cached then 1 else 0) == SystemBlockMarks(bs) + (if b.cached then 1 else 0)
  {
    var g := bs[k := b];
    if k > 0 {
      SystemMarksUpdate(bs[1..], k - 1, b);
      assert g[1..] == bs[1..][k - 1 := b];
    }
  }

  /** Marking twice is marking once. */
  lemma MarkIsIdempotent(r: Marked)
    ensures Mark(Mark(r)) == Mark(r)
  {
    var once := Mark(r);
    assert MarkTools(once.tools) == once.tools;
    assert MarkSystem(once.system) == once.system;
    if r.messages != [] {
      var last := once.messages[|once.messages| - 1];
      if last.content.Blocks? {
        assert MarkContent(last.content) == last.content;
      }
    }
    assert MarkMessages(once.messages) == once.messages;
  }

  lemma ContentMarks(m: Message)
    ensures var g := m.(content := MarkContent(m.content));
      MessageMarks(m) <= MessageMarks(g) <= MessageMarks(m) + 1 && Texts(g) == Texts(m)
  {
    if m.content.Blocks? && m.content.blocks != [] {
      var bs := m.content.blocks;
      BlockMarksUpdate(bs, |bs| - 1, bs[|bs| - 1].(cached := true));
      assert BlockTexts(bs[|bs| - 1 := bs[|bs| - 1].(cached := true)]) == BlockTexts(bs);
    } else if m.content.Str? {
      var one := [Block(TextBlock, text := m.content.s, cached := true)];
      assert one[1..] == [] && BlockMarks(one) == 1;
      assert BlockTexts(one) == [m.content.s];
    }
  }

  lemma SystemGainsOneMark(s: System)
    ensures SystemMarks(s) <= SystemMarks(MarkSystem(s)) <= SystemMarks(s) + 1
    ensures SystemTexts(MarkSystem(s)) == SystemTexts(s)
  {
    if s.SystemBlocks? && s.blocks != [] {
      SystemMarksUpdate(s.blocks, |s.blocks| - 1, s.blocks[|s.blocks| - 1].(cached := true));
    } else if s.SystemText? {
      var one := [SystemBlock(s.text, true)];
      assert one[1..] == [] && SystemBlockMarks(one) == 1;
    }
  }

  lemma MessagesGainOneMark(ms: seq<Message>)
    ensures Marks(ms) <= Marks(MarkMessages(ms)) <= Marks(ms) + 1
    ensures |MarkMessages(ms)| == |ms|
    ensures forall i :: 0 <= i < |ms| ==> Texts(MarkMessages(ms)[i]) == Texts(ms[i])
  {
    if ms != [] {
      var last := ms[|ms| - 1];
      MarksUpdate(ms, |ms| - 1, last.(content := MarkContent(last.content)));
      ContentMarks(last);
    }
  }

  /** Each of tools, system and messages gains at most one mark, and no text changes. */
  lemma MarkAddsAtMostOne(r: Marked)
    ensures var g := Mark(r);
      && ToolMarks(r.tools) <= ToolMarks(g.tools) <= ToolMarks(r.tools) + 1
      && SystemMarks(r.system) <= SystemMarks(g.system) <= SystemMarks(r.system) + 1
      && Marks(r.messages) <= Marks(g.messages) <= Marks(r.messages) + 1
      && SystemTexts(g.system) == SystemTexts(r.system)
      && |g.messages| == |r.messages|
      && forall i :: 0 <= i < |r.messages| ==> Texts(g.messages[i]) == Texts(r.messages[i])
  {
    if r.tools != [] {
      ToolMarksUpdate(r.tools, |r.tools| - 1, r.tools[|r.tools| - 1].(cached := true));
    }
    SystemGainsOneMark(r.system);
    MessagesGainOneMark(r.messages);
  }

  /** The same message but for its marks, a plain string being its one text block. */
  predicate SameButMarks(a: Message, b: Message) {
    a.role == b.role &&
    match b.content
    case Str(s) => a.content == b.content || a.content == Blocks([Block(TextBlock, text := s, cached := true)])
    case Blocks(bs) =>
      a.content.Blocks? && |a.content.blocks| == |bs|
      && forall i :: 0 <= i < |bs| ==> a.content.blocks[i].(cached := false) == bs[i].(cached := false)
    case _ => a.content == b.content
  }

  /** A message with something to mark: text that is not blank, or any block. */
  predicate Markable(m: Message) {
    match m.content
    case Str(s) => TrimSpace(s) != ""
    case Blocks(bs) => bs != []
    case _ => false
  }

  predicate EndsMarked(m: Message) {
    m.content.Blocks? && m.content.blocks != [] && m.content.blocks[|m.content.blocks| - 1].cached
  }

  /** Marking changes nothing but marks, none before the last message, and that one ends in a mark whenever there is
      something to mark. */
  lemma MarkReachesTheEnd(ms: seq<Message>)
    ensures |MarkMessages(ms)| == |ms|
    ensures forall i :: 0 <= i < |ms| ==> SameButMarks(MarkMessages(ms)[i], ms[i])
    ensures forall i :: 0 <= i < |ms| - 1 ==> MarkMessages(ms)[i] == ms[i]
    ensures ms != [] && Markable(ms[|ms| - 1]) ==> EndsMarked(MarkMessages(ms)[|ms| - 1])
  {
  }

  /** So do the tools and the system text: the last tool bears a mark, and the last block of a system that is not
      blank. */
  lemma MarkReachesTools(tools: seq<ToolDef>, system: System)
    ensures |MarkTools(tools)| == |tools|
    ensures forall i :: 0 <= i < |tools| ==> MarkTools(tools)[i] == tools[i].(cached := tools[i].cached || i == |tools| - 1)
    ensures system.SystemText? && TrimSpace(system.text) != "" ==> MarkSystem(system) == SystemBlocks([SystemBlock(system.text, true)])
    ensures system.SystemBlocks? && system.blocks != [] ==>
      MarkSystem(system).SystemBlocks? && |MarkSystem(system).blocks| == |system.blocks|
      && MarkSystem(system).blocks[|system.blocks| - 1].cached
  {
  }

  lemma {:induction false} IdsUpdate(bs: seq<Block>, k: nat, b: Block)
    requires k < |bs| && bs[k].typ == b.typ && bs[k].id == b.id && bs[k].useId == b.useId
    ensures UseIds(bs[k := b]) == UseIds(bs) && ResultIds(bs[k := b]) == ResultIds(bs)
  {
    var g := bs[k := b];
    if k > 0 {
      IdsUpdate(bs[1..], k - 1, b);
      assert g[1..] == bs[1..][k - 1 := b];
    } else {
      assert g[1..] == bs[1..];
    }
  }

  lemma MarkContentKeepsIds(m: Message)
    ensures var g := m.(content := MarkContent(m.content)); Uses(g) == Uses(m) && Results(g) == Results(m)
  {
    if m.content.Blocks? && m.content.blocks != [] {
      var bs := m.content.blocks;
      IdsUpdate(bs, |bs| - 1, bs[|bs| - 1].(cached := true));
    } else if m.content.Str? {
      var one := [Block(TextBlock, text := m.content.s, cached := true)];
      assert one[1..] == [] && UseIds(one) == [] && ResultIds(one) == [];
    }
  }

  lemma MarkKeepsIds(ms: seq<Message>)
    ensures |MarkMessages(ms)| == |ms|
    ensures forall i :: 0 <= i < |ms| ==> (
      var m := MarkMessages(ms)[i]; m.role == ms[i].role && Uses(m) == Uses(ms[i]) && Results(m) == Results(ms[i]))
  {
    if ms != [] {
      MarkContentKeepsIds(ms[|ms| - 1]);
    }
  }

  /** A marked request is as well paired as the history it was built from. */
  lemma MarkKeepsPairing(ms: seq<Message>)
    ensures Paired(MarkMessages(ms)) <==> Paired(ms)
  {
    MarkKeepsIds(ms);
    PairedSameIds(ms, MarkMessages(ms));
  }

  // ----- The request as slices in memory -----

  datatype SliceContent = SNil | SStr(s: string) | SBlocks(blocks: array<Block>) | SRaw(json: string)

  datatype SliceMessage = SliceMessage(role: string, content: SliceContent)

  ghost function Arrays(ms: seq<SliceMessage>): set<array<Block>> {
    set m | m in ms && m.content.SBlocks? :: m.content.blocks
  }

  ghost function ContentValue(c: SliceContent): Content
    reads if c.SBlocks? then {c.blocks} else {}
  {
    match c
    case SNil => Nil
    case SStr(s) => Str(s)
    case SBlocks(a) => Blocks(a[..])
    case SRaw(j) => Raw(j)
  }

  ghost function Values(ms: seq<SliceMessage>): seq<Message>
    reads Arrays(ms)
  {
    seq(|ms|, i requires 0 <= i < |ms| reads Arrays(ms) =>
      assert ms[i] in ms; Message(ms[i].role, ContentValue(ms[i].content)))
  }

  twostate lemma ValuesKept(ms: seq<SliceMessage>)
    requires forall a :: a in Arrays(ms) ==> a[..] == old(a[..])
    ensures Values(ms) == old(Values(ms))
  {
    forall i | 0 <= i < |ms| ensures Values(ms)[i] == old(Values(ms))[i] {
      assert ms[i] in ms;
    }
  }

  class Request {
    var tools: array<ToolDef>
    var system: System
    var messages: array<SliceMessage>

    constructor (tools: array<ToolDef>, system: System, messages: array<SliceMessage>)
      ensures this.tools == tools && this.system == system && this.messages == messages
    {
      this.tools, this.system, this.messages := tools, system, messages;
    }

    /** Only the request and its own tool list are written: the history slice it was given, and every block
        slice reachable from it, stay as they were. */
    method ApplyCacheBreakpoints()
      modifies this, tools
      ensures tools == old(tools) && tools[..] == MarkTools(old(tools[..]))
      ensures system == MarkSystem(old(system))
      ensures Values(messages[..]) == MarkMessages(old(Values(messages[..])))
      ensures old(messages).Length > 0 ==> fresh(messages)
    {
      label start:
      MarkToolsTail(tools);
      system := UpgradedSystem(system);
      ValuesKept@start(messages[..]);
      MarkMessagesTail();
    }

    method MarkMessagesTail()
      modifies this`messages
      ensures Values(messages[..]) == MarkMessages(old(Values(messages[..])))
      ensures old(messages).Length > 0 ==> fresh(messages)
    {
      if messages.Length == 0 {
        assert Values(messages[..]) == [];
        return;
      }
      var given := messages;
      messages := MarkedCopy(messages);
      ValuesKept(given[..]);
    }

    static method UpgradedSystem(s: System) returns (r: System)
      ensures r == MarkSystem(s)
    {
      r := s;
      match s {
        case SystemText(t) =>
          if TrimSpace(t) != "" {
            r := SystemBlocks([SystemBlock(t, true)]);
          }
        case SystemBlocks(bs) =>
          if bs != [] && !bs[|bs| - 1].cached {
            r := SystemBlocks(bs[|bs| - 1 := bs[|bs| - 1].(cached := true)]);
          }
        case SystemOther =>
      }
    }

    static method MarkToolsTail(tools: array<ToolDef>)
      modifies tools
      ensures tools[..] == MarkTools(old(tools[..]))
    {
      var n := tools.Length;
      if n > 0 && !tools[n - 1].cached {
        tools[n - 1] := tools[n - 1].(cached := true);
      }
      assert n > 0 ==> tools[..] == old(tools[..])[n - 1 := old(tools[..])[n - 1].(cached := true)];
    }

    /** The messages in a slice of their own, the last one marked. */
    static method MarkedCopy(a: array<SliceMessage>) returns (msgs: array<SliceMessage>)
      requires a.Length > 0
      ensures fresh(msgs) && Values(msgs[..]) == MarkMessages(Values(a[..]))
    {
      msgs := CopyMessages(a);
      var n := a.Length;
      var last := MarkLast(a[n - 1]);
      msgs[n - 1] := last;
      assert forall i :: 0 <= i < n - 1 ==> msgs[..][i] == a[..][i];
      assert forall i :: 0 <= i < n ==> a[..][i] in a[..];
    }

    static method CopyMessages(a: array<SliceMessage>) returns (b: array<SliceMessage>)
      ensures fresh(b) && b[..] == a[..]
    {
      b := new SliceMessage[a.Length](i requires 0 <= i < a.Length reads a => a[i]);
      assert b[..] == a[..];
    }

    /** The last message with its mark; its blocks are copied before one of them is changed. */
    static method MarkLast(m: SliceMessage) returns (r: SliceMessage)
      ensures r.role == m.role && ContentValue(r.content) == MarkContent(ContentValue(m.content))
      ensures r.content.SBlocks? ==> r == m || fresh(r.content.blocks)
    {
      r := m;
      match m.content {
        case SStr(s) =>
          if TrimSpace(s) == "" {
            return;
          }
          var one := new Block[1](_ => Block(TextBlock, text := s, cached := true));
          assert one[..] == [Block(TextBlock, text := s, cached := true)];
          r := m.(content := SBlocks(one));
        case SBlocks(a) =>
          var n := a.Length;
          if n == 0 {
            return;
          }
          var blocks := new Block[n](i requires 0 <= i < n reads a => a[i]);
          assert blocks[..] == a[..];
          if !blocks[n - 1].cached {
            blocks[n - 1] := blocks[n - 1].(cached := true);
          }
          assert blocks[..] == a[..][n - 1 := a[n - 1].(cached := true)];
          r := m.(content := SBlocks(blocks));
        case _ =>
      }
    }
  }

  /** A caller that hands its history to a request finds the same history afterwards, marks and all. */
  method MarkSharedHistory(history: array<SliceMessage>, tools: array<ToolDef>, system: System) returns (req: Request)
    modifies tools
    ensures fresh(req) && req.tools == tools
    ensures history[..] == old(history[..]) && Values(history[..]) == old(Values(history[..]))
    ensures Values(req.messages[..]) == MarkMessages(Values(history[..]))
  {
    req := new Request(tools, system, history);
    req.ApplyCacheBreakpoints();
    ValuesKept(history[..]);
  }
}
