/** Replacing images already seen by the model with a line of text (app/agentcore/media.go). */
module Media {
  import opened Text
  import opened Messages
  import opened Cache

  const PLACEHOLDER_BEFORE := "[图片已省略：用户早前发送的一张 "
  const PLACEHOLDER_AFTER := "，内容在你上一轮的上下文中已处理过。若还需要看清细节，请让用户重新发送。]"

  function Placeholder(mediaType: string): string {
    var t := TrimSpace(mediaType);
    PLACEHOLDER_BEFORE + (if t == "" then "image" else t) + PLACEHOLDER_AFTER
  }

  function StubBlock(b: Block): Block {
    if b.typ != Image then b
    else Block(TextBlock, text := Placeholder(if b.source.Some? then b.source.value.mediaType else ""))
  }

  function StubBlocks(bs: seq<Block>): seq<Block> {
    seq(|bs|, i requires 0 <= i < |bs| => StubBlock(bs[i]))
  }

  function StubMessage(m: Message): Message {
    if m.content.Blocks? then m.(content := Blocks(StubBlocks(m.content.blocks))) else m
  }

  function StubHistory(h: seq<Message>): seq<Message> {
    seq(|h|, i requires 0 <= i < |h| => StubMessage(h[i]))
  }

  predicate ShowsImage(m: Message) {
    m.content.Blocks? && exists i :: 0 <= i < |m.content.blocks| && m.content.blocks[i].typ == Image
  }

  /** The rewriting loops over the history and, in a copy, over each message's blocks. */
  method StubImages(h: seq<Message>) returns (out: seq<Message>)
    ensures out == StubHistory(h)
  {
    out := h;
    for i := 0 to |h|
      invariant |out| == |h|
      invariant forall k :: 0 <= k < |h| ==> out[k] == if k < i then StubMessage(h[k]) else h[k]
    {
      if out[i].content.Blocks? {
        var blocks := h[i].content.blocks;
        var cp, changed := blocks, false;
        for j := 0 to |cp|
          invariant |cp| == |blocks|
          invariant forall k :: 0 <= k < |cp| ==> cp[k] == if k < j then StubBlock(blocks[k]) else blocks[k]
          invariant !changed ==> cp == blocks
        {
          if cp[j].typ == Image {
            cp := cp[j := StubBlock(cp[j])];
            changed := true;
          }
        }
        assert cp == StubBlocks(blocks);
        if changed {
          out := out[i := out[i].(content := Blocks(cp))];
        }
      }
    }
  }

  lemma {:induction false} StubKeepsIds(bs: seq<Block>)
    ensures UseIds(StubBlocks(bs)) == UseIds(bs) && ResultIds(StubBlocks(bs)) == ResultIds(bs)
    ensures BlockMarks(StubBlocks(bs)) <= BlockMarks(bs)
  {
    if bs != [] {
      StubKeepsIds(bs[1..]);
      assert StubBlocks(bs)[1..] == StubBlocks(bs[1..]);
    }
  }

  /** The rewrite leaves the pairing as it was, adds no mark, and shows no image at the top level of any message. */
  lemma StubHistoryKeeps(h: seq<Message>)
    ensures Paired(StubHistory(h)) <==> Paired(h)
    ensures Unmarked(h) ==> Unmarked(StubHistory(h))
    ensures forall i :: 0 <= i < |h| ==> !ShowsImage(StubHistory(h)[i])
  {
    forall i | 0 <= i < |h|
      ensures Uses(StubHistory(h)[i]) == Uses(h[i]) && Results(StubHistory(h)[i]) == Results(h[i])
      ensures MessageMarks(StubHistory(h)[i]) <= MessageMarks(h[i])
    {
      if h[i].content.Blocks? {
        StubKeepsIds(h[i].content.blocks);
      }
    }
    PairedSameIds(h, StubHistory(h));
  }

  /** Only images are replaced, each by one text block naming its media type; roles and everything else stay. */
  lemma StubReplacesImagesOnly(h: seq<Message>, k: nat)
    requires k < |h|
    ensures |StubHistory(h)| == |h| && StubHistory(h)[k].role == h[k].role
    ensures !h[k].content.Blocks? ==> StubHistory(h)[k] == h[k]
    ensures h[k].content.Blocks? ==>
      var g := StubHistory(h)[k].content;
      && g.Blocks? && |g.blocks| == |h[k].content.blocks|
      && forall j :: 0 <= j < |g.blocks| ==>
        var b := h[k].content.blocks[j];
        if b.typ != Image then g.blocks[j] == b
        else g.blocks[j].typ == TextBlock && Within(MediaTypeOf(b), g.blocks[j].text)
  {
    if h[k].content.Blocks? {
      forall j | 0 <= j < |h[k].content.blocks| && h[k].content.blocks[j].typ == Image
        ensures Within(MediaTypeOf(h[k].content.blocks[j]), StubBlock(h[k].content.blocks[j]).text)
      {
        PlaceholderNames(h[k].content.blocks[j]);
      }
    }
  }

  function MediaTypeOf(b: Block): string {
    TrimSpace(if b.source.Some? then b.source.value.mediaType else "")
  }

  lemma PlaceholderNames(b: Block)
    requires b.typ == Image
    ensures Within(MediaTypeOf(b), StubBlock(b).text)
  {
    var t, text := MediaTypeOf(b), StubBlock(b).text;
    if t == "" {
      assert PartAt(t, text, 0);
    } else {
      WithinConcat(PLACEHOLDER_BEFORE, t, PLACEHOLDER_AFTER);
    }
  }

  /** Stubbing again changes nothing. */
  lemma StubIsIdempotent(h: seq<Message>)
    ensures StubHistory(StubHistory(h)) == StubHistory(h)
  {
    forall i | 0 <= i < |h| ensures StubHistory(StubHistory(h))[i] == StubHistory(h)[i] {
      if h[i].content.Blocks? {
        assert StubBlocks(StubBlocks(h[i].content.blocks)) == StubBlocks(h[i].content.blocks);
      }
    }
  }

  // ----- Images inside tool results -----

  predicate HasImage(c: Content)
    decreases c, 0
  {
    c.Blocks? && AnyImage(c.blocks)
  }

  /** An image among the blocks or in the content of one of them, at any depth. */
  predicate AnyImage(bs: seq<Block>)
    decreases bs, 1
  {
    bs != [] && (bs[0].typ == Image || HasImage(bs[0].content) || AnyImage(bs[1..]))
  }

  /** A block that is no image itself but holds one. */
  predicate HidesImage(bs: seq<Block>) {
    exists i :: 0 <= i < |bs| && bs[i].typ != Image && HasImage(bs[i].content)
  }

  lemma HidesStep(bs: seq<Block>)
    requires bs != []
    ensures HidesImage(bs) <==> (bs[0].typ != Image && HasImage(bs[0].content)) || HidesImage(bs[1..])
  {
    assert forall i :: 1 <= i < |bs| ==> bs[i] == bs[1..][i - 1];
    assert forall i :: 0 <= i < |bs| - 1 ==> bs[1..][i] == bs[i + 1];
  }

  lemma {:induction false} StubbedStillHasImageIff(bs: seq<Block>)
    ensures AnyImage(StubBlocks(bs)) <==> HidesImage(bs)
  {
    if bs != [] {
      StubbedStillHasImageIff(bs[1..]);
      assert StubBlocks(bs)[1..] == StubBlocks(bs[1..]);
      HidesStep(bs);
    }
  }

  /** After the rewrite a message still carries an image exactly when one was nested in a block of its own. */
  lemma NestedImagesStayIff(h: seq<Message>, k: nat)
    requires k < |h|
    ensures HasImage(StubHistory(h)[k].content) <==> h[k].content.Blocks? && HidesImage(h[k].content.blocks)
  {
    if h[k].content.Blocks? {
      StubbedStillHasImageIff(h[k].content.blocks);
    }
  }

  /** For one, a tool result with a picture in it. */
  lemma NestedImageStays()
    ensures var m := Message(USER, Blocks([Block(ToolResult, useId := "t", content := Blocks([Block(Image)]))]));
      StubHistory([m]) == [m] && HasImage(m.content)
  {
    var m := Message(USER, Blocks([Block(ToolResult, useId := "t", content := Blocks([Block(Image)]))]));
    var inner := [Block(Image)];
    assert AnyImage(inner);
    assert m.content.blocks[0].content == Blocks(inner);
    assert StubBlocks(m.content.blocks) == m.content.blocks;
  }
}
