/** Conversation messages of the agent kernel (app/agentcore/types.go) and what keeps them acceptable upstream. */
module Messages {
  import opened Text
  import opened Wrappers

  datatype BlockType = Untyped | TextBlock | Thinking | Image | ToolUse | ToolResult | OtherBlock

  datatype ImageSource = ImageSource(mediaType: string, data: string)

  /** A content block; `input` is the tool arguments as canonical JSON, `cached` the cache_control mark. */
  datatype Block = Block(
    typ: BlockType, text: string := "", source: Option<ImageSource> := None,
    id: string := "", name: string := "", input: string := "null",
    useId: string := "", content: Content := Nil, isError: bool := false, cached: bool := false)

  /** `Raw` is any other content value, given by its JSON ("" when it cannot be marshalled). */
  datatype Content = Nil | Str(s: string) | Blocks(blocks: seq<Block>) | Raw(json: string)

  datatype Message = Message(role: string, content: Content)

  const ASSISTANT := "assistant"
  const USER := "user"

  function NormRole(role: string): string {
    ToLower(TrimSpace(role))
  }

  lemma KnownRoles()
    ensures NormRole(ASSISTANT) == ASSISTANT && NormRole(USER) == USER
  {
    assert TrimSpace(ASSISTANT) == ASSISTANT && TrimSpace(USER) == USER;
    assert ToLower(ASSISTANT) == ASSISTANT && ToLower(USER) == USER;
  }

  // ----- Tool pairing -----

  function UseIds(bs: seq<Block>): seq<string> {
    if bs == [] then []
    else (if bs[0].typ == ToolUse then [bs[0].id] else []) + UseIds(bs[1..])
  }

  function ResultIds(bs: seq<Block>): seq<string> {
    if bs == [] then []
    else (if bs[0].typ == ToolResult then [bs[0].useId] else []) + ResultIds(bs[1..])
  }

  function Uses(m: Message): seq<string> {
    if m.content.Blocks? then UseIds(m.content.blocks) else []
  }

  function Results(m: Message): seq<string> {
    if m.content.Blocks? then ResultIds(m.content.blocks) else []
  }

  predicate IsAssistant(m: Message) {
    NormRole(m.role) == ASSISTANT
  }

  predicate IsUser(m: Message) {
    NormRole(m.role) == USER
  }

  /** Message i asks for tools only as an assistant, and the next message is the user's matching answer. */
  predicate Answered(h: seq<Message>, i: int)
    requires 0 <= i < |h|
  {
    Uses(h[i]) != [] ==>
      IsAssistant(h[i]) && i + 1 < |h| && IsUser(h[i + 1]) && Results(h[i + 1]) == Uses(h[i])
  }

  /** Message i answers tools only right after the assistant message that asked for just those. */
  predicate Asked(h: seq<Message>, i: int)
    requires 0 <= i < |h|
  {
    Results(h[i]) != [] ==>
      IsUser(h[i]) && Uses(h[i]) == [] && i > 0 && IsAssistant(h[i - 1]) && Uses(h[i - 1]) == Results(h[i])
  }

  /** Every tool request is answered at once by the same ids in the same order, and nothing else is answered. */
  predicate Paired(h: seq<Message>) {
    forall i :: 0 <= i < |h| ==> Answered(h, i) && Asked(h, i)
  }

  /** Text from a person: no tool blocks. */
  predicate Human(m: Message) {
    IsUser(m) && Uses(m) == [] && Results(m) == []
  }

  predicate AllHuman(ms: seq<Message>) {
    forall i :: 0 <= i < |ms| ==> Human(ms[i])
  }

  lemma PairedAppendPlain(h: seq<Message>, ms: seq<Message>)
    requires Paired(h)
    requires forall i :: 0 <= i < |ms| ==> Uses(ms[i]) == [] && Results(ms[i]) == []
    ensures Paired(h + ms)
  {
    var g := h + ms;
    forall i | 0 <= i < |g| ensures Answered(g, i) && Asked(g, i) {
      if i < |h| {
        assert Answered(h, i) && Asked(h, i);
      }
    }
  }

  /** An assistant turn asking for tools together with the answer to exactly those keeps the pairing. */
  lemma PairedAppendExchange(h: seq<Message>, ask: Message, answer: Message)
    requires Paired(h)
    requires IsAssistant(ask) && Results(ask) == [] && IsUser(answer)
    requires Uses(answer) == [] && Results(answer) == Uses(ask)
    ensures Paired(h + [ask, answer])
  {
    var g := h + [ask, answer];
    forall i | 0 <= i < |g| ensures Answered(g, i) && Asked(g, i) {
      if i < |h| {
        assert Answered(h, i) && Asked(h, i);
      }
    }
  }

  /** A request left unanswered breaks the pairing, whatever follows that is not the answer. */
  lemma DanglingIsUnpaired(h: seq<Message>, ask: Message, next: Message)
    requires Uses(ask) != [] && Results(next) == []
    ensures !Paired(h + [ask, next])
  {
    var g := h + [ask, next];
    assert !Answered(g, |h|);
  }

  /** Dropping a prefix keeps the pairing when what is left does not begin with an answer. */
  lemma PairedSuffix(h: seq<Message>, k: nat)
    requires Paired(h) && k <= |h|
    requires k < |h| ==> Results(h[k]) == []
    ensures Paired(h[k..])
  {
    var g := h[k..];
    forall i | 0 <= i < |g| ensures Answered(g, i) && Asked(g, i) {
      assert Answered(h, k + i) && Asked(h, k + i);
    }
  }

  lemma PairedPrepend(m: Message, h: seq<Message>)
    requires Paired(h) && Uses(m) == [] && Results(m) == []
    ensures Paired([m] + h)
  {
    var g := [m] + h;
    forall i | 0 <= i < |g| ensures Answered(g, i) && Asked(g, i) {
      if i > 0 {
        assert Answered(h, i - 1) && Asked(h, i - 1);
      }
    }
  }

  /** Rewriting messages without touching roles or ids keeps the pairing, and brings none about. */
  lemma PairedSameIds(h: seq<Message>, g: seq<Message>)
    requires |h| == |g|
    requires forall i :: 0 <= i < |h| ==> h[i].role == g[i].role && Uses(h[i]) == Uses(g[i]) && Results(h[i]) == Results(g[i])
    ensures Paired(h) <==> Paired(g)
  {
    if Paired(h) {
      forall i | 0 <= i < |g| ensures Answered(g, i) && Asked(g, i) {
        assert Answered(h, i) && Asked(h, i);
      }
    }
    if Paired(g) {
      forall i | 0 <= i < |h| ensures Answered(h, i) && Asked(h, i) {
        assert Answered(g, i) && Asked(g, i);
      }
    }
  }

  // ----- Token estimate -----

  function ContentTokens(c: Content): nat
    decreases c, 1
  {
    match c
    case Nil => 0
    case Str(s) => TextTokens(s)
    case Blocks(bs) => BlocksTokens(bs)
    case Raw(json) => TextTokens(json)
  }

  function BlocksTokens(bs: seq<Block>): nat
    decreases bs, 0
  {
    if bs == [] then 0 else BlockTokens(bs[0]) + BlocksTokens(bs[1..])
  }

  const IMAGE_TOKENS: nat := 1600

  function BlockTokens(b: Block): nat
    decreases b, 2
  {
    match b.typ
    case TextBlock | Thinking => TextTokens(b.text)
    case ToolUse => TextTokens(b.name) + TextTokens(b.input)
    case ToolResult => ContentTokens(b.content)
    case Image => IMAGE_TOKENS
    case _ => 0
  }

  const MESSAGE_OVERHEAD: nat := 4

  function MessageTokens(m: Message): (t: nat)
    ensures t >= MESSAGE_OVERHEAD
  {
    MESSAGE_OVERHEAD + TextTokens(m.role) + ContentTokens(m.content)
  }

  function Tokens(ms: seq<Message>): nat {
    if ms == [] then 0 else MessageTokens(ms[0]) + Tokens(ms[1..])
  }

  lemma {:induction false} TokensAppend(a: seq<Message>, b: seq<Message>)
    ensures Tokens(a + b) == Tokens(a) + Tokens(b)
  {
    if a == [] {
      assert a + b == b;
    } else {
      assert (a + b)[1..] == a[1..] + b;
      TokensAppend(a[1..], b);
    }
  }

  lemma {:induction false} TokensSuffixLe(ms: seq<Message>, i: nat, j: nat)
    requires i <= j <= |ms|
    ensures Tokens(ms[j..]) <= Tokens(ms[i..])
    decreases j - i
  {
    if i < j {
      assert ms[i..][1..] == ms[i + 1..];
      TokensSuffixLe(ms, i + 1, j);
    }
  }

  // ----- What the estimate counts -----

  function ContentChars(c: Content): nat
    decreases c, 1
  {
    match c
    case Nil => 0
    case Str(s) => |s|
    case Blocks(bs) => BlocksChars(bs)
    case Raw(json) => |json|
  }

  function BlocksChars(bs: seq<Block>): nat
    decreases bs, 0
  {
    if bs == [] then 0 else BlockChars(bs[0]) + BlocksChars(bs[1..])
  }

  /** The characters a block puts before the model: its text, a tool's name and arguments, or a result's content. */
  function BlockChars(b: Block): nat
    decreases b, 2
  {
    if b.typ == TextBlock || b.typ == Thinking then |b.text|
    else if b.typ == ToolUse then |b.name| + |b.input|
    else if b.typ == ToolResult then ContentChars(b.content)
    else 0
  }

  function ContentImages(c: Content): nat
    decreases c, 1
  {
    if c.Blocks? then BlocksImages(c.blocks) else 0
  }

  /** Images, those in tool results included. */
  function BlocksImages(bs: seq<Block>): nat
    decreases bs, 0
  {
    if bs == [] then 0
    else (if bs[0].typ == Image then 1 else if bs[0].typ == ToolResult then ContentImages(bs[0].content) else 0)
         + BlocksImages(bs[1..])
  }

  function Chars(ms: seq<Message>): nat {
    if ms == [] then 0 else |ms[0].role| + ContentChars(ms[0].content) + Chars(ms[1..])
  }

  function Images(ms: seq<Message>): nat {
    if ms == [] then 0 else ContentImages(ms[0].content) + Images(ms[1..])
  }

  predicate Bounded(tokens: nat, chars: nat, images: nat) {
    chars + 6400 * images <= 4 * tokens && tokens <= chars + 1600 * images
  }

  lemma TextBounded(s: string)
    ensures Bounded(TextTokens(s), |s|, 0)
  {
    TokensOfOneKind(s);
  }

  lemma {:induction false} ContentBounded(c: Content)
    ensures Bounded(ContentTokens(c), ContentChars(c), ContentImages(c))
    decreases c, 1
  {
    match c
    case Nil =>
    case Str(s) => TextBounded(s);
    case Raw(json) => TextBounded(json);
    case Blocks(bs) => BlocksBounded(bs);
  }

  lemma {:induction false} BlocksBounded(bs: seq<Block>)
    ensures Bounded(BlocksTokens(bs), BlocksChars(bs), BlocksImages(bs))
    decreases bs, 0
  {
    if bs != [] {
      BlockBounded(bs[0]);
      BlocksBounded(bs[1..]);
    }
  }

  lemma {:induction false} BlockBounded(b: Block)
    ensures Bounded(BlockTokens(b), BlockChars(b),
                    if b.typ == Image then 1 else if b.typ == ToolResult then ContentImages(b.content) else 0)
    decreases b, 2
  {
    TextBounded(b.text);
    TextBounded(b.name);
    TextBounded(b.input);
    if b.typ == ToolResult {
      ContentBounded(b.content);
    }
  }

  /** The estimate counts four tokens a message, 1600 an image wherever it stands, and for all the text there is between a
      quarter of a token and one token a character. */
  lemma {:induction false} EstimateBounds(ms: seq<Message>)
    ensures Tokens(ms) >= 4 * |ms| && Bounded(Tokens(ms) - 4 * |ms|, Chars(ms), Images(ms))
  {
    if ms != [] {
      EstimateBounds(ms[1..]);
      TextBounded(ms[0].role);
      ContentBounded(ms[0].content);
    }
  }

  method EstimateContent(c: Content) returns (t: nat)
    ensures t == ContentTokens(c)
    decreases c, 1
  {
    match c
    case Nil => t := 0;
    case Str(s) => t := EstimateText(s);
    case Raw(json) => t := EstimateText(json);
    case Blocks(bs) =>
      t := 0;
      for i := 0 to |bs|
        invariant t + BlocksTokens(bs[i..]) == BlocksTokens(bs)
      {
        assert bs[i..][1..] == bs[i + 1..];
        var e := EstimateBlock(bs[i]);
        t := t + e;
      }
  }

  method EstimateBlock(b: Block) returns (t: nat)
    ensures t == BlockTokens(b)
    decreases b, 2
  {
    match b.typ
    case TextBlock | Thinking => t := EstimateText(b.text);
    case ToolUse =>
      var n := EstimateText(b.name);
      t := EstimateText(b.input);
      t := n + t;
    case ToolResult => t := EstimateContent(b.content);
    case Image => t := IMAGE_TOKENS;
    case _ => t := 0;
  }

  method EstimateTokens(ms: seq<Message>) returns (total: nat)
    ensures total == Tokens(ms)
  {
    total := 0;
    for i := 0 to |ms|
      invariant total + Tokens(ms[i..]) == Tokens(ms)
    {
      assert ms[i..][1..] == ms[i + 1..];
      var r := EstimateText(ms[i].role);
      var c := EstimateContent(ms[i].content);
      total := total + MESSAGE_OVERHEAD + r + c;
    }
  }
}
