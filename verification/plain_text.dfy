/**
  `blockContentToPlainText`: a Portable Text document flattened to its text
  runs. Text blocks contribute their spans' texts, everything else an empty
  string, and the per-block strings are joined with a blank line.
 */
module PlainText {
  import opened Wrappers
  import opened JsValues
  import opened Strings

  /** An inline text run; only its `text` field is read. */
  datatype Span = Span(text: Option<Value>)

  /** A document node: `_type` and, for text blocks, `children` (absent or falsy is `None`). */
  datatype Block = Block(blockType: Option<Value>, children: Option<seq<Span>>)

  const BlockSeparator: string := "\n\n"

  /** A text block is one whose `_type` is the string "block" and that has children. */
  predicate IsTextBlock(b: Block)
  {
    b.blockType == Some(Str("block")) && b.children.Some?
  }

  /** What `join("")` renders for one span: a missing or null `text` becomes "". */
  function SpanText(span: Span): (r: string)
    ensures span.text.None? || span.text == Some(Null) ==> r == ""
    ensures span.text.Some? && span.text.value.Str? ==> r == span.text.value.s
    ensures span.text.Some? && span.text.value.Num? ==> r == IntToString(span.text.value.n)
  {
    match span.text
    case None => ""
    case Some(Null) => ""
    case Some(v) => ToJsString(v)
  }

  /** `children.map((span) => span.text)`, rendered as `join` renders it. */
  function SpanTexts(spans: seq<Span>): (r: seq<string>)
    ensures |r| == |spans|
    ensures forall i :: 0 <= i < |spans| ==> r[i] == SpanText(spans[i])
  {
    seq(|spans|, i requires 0 <= i < |spans| => SpanText(spans[i]))
  }

  /**
    The string one block contributes: nothing unless it is a text block,
    otherwise exactly as many characters as its spans' texts together.
   */
  function BlockText(b: Block): (r: string)
    ensures !IsTextBlock(b) ==> r == ""
    ensures IsTextBlock(b) ==> |r| == SumLen(SpanTexts(b.children.value))
  {
    if IsTextBlock(b) then
      var texts := SpanTexts(b.children.value);
      if |texts| == 0 then "" else JoinLength(texts, ""); Join(texts, "")
    else ""
  }

  /** `blocks.map(...)`: one string per block, in document order. */
  function BlockTexts(blocks: seq<Block>): (r: seq<string>)
    ensures |r| == |blocks|
    ensures forall i :: 0 <= i < |blocks| ==> r[i] == BlockText(blocks[i])
  {
    seq(|blocks|, i requires 0 <= i < |blocks| => BlockText(blocks[i]))
  }

  /**
    `blockContentToPlainText(blocks = [])`, for documents whose elements are
    block objects. The result is empty exactly when there is at most one
    block and that block contributes no text, and otherwise it holds every
    block's text plus one blank line between neighbours.
   */
  function BlockContentToPlainText(blocks: Option<seq<Block>>): (r: string)
    ensures blocks.None? ==> r == ""
    ensures var bs := blocks.GetOr([]);
            r == "" <==> |bs| == 0 || (|bs| == 1 && BlockText(bs[0]) == "")
    ensures var bs := blocks.GetOr([]);
            |bs| >= 1 ==> |r| == SumLen(BlockTexts(bs)) + 2 * (|bs| - 1)
  {
    var bs := blocks.GetOr([]);
    var texts := BlockTexts(bs);
    if |texts| == 0 then ""
    else
      JoinLength(texts, BlockSeparator);
      assert |texts| == 1 ==> SumLen(texts) == |texts[0]|;
      Join(texts, BlockSeparator)
  }

  /** `blocks.map(...)` done element by element. */
  method MapBlockTexts(bs: seq<Block>) returns (texts: seq<string>)
    ensures texts == BlockTexts(bs)
  {
    texts := [];
    var i := 0;
    while i < |bs|
      invariant 0 <= i <= |bs|
      invariant texts == BlockTexts(bs[..i])
    {
      assert BlockTexts(bs[..i + 1]) == BlockTexts(bs[..i]) + [BlockText(bs[i])];
      texts := texts + [BlockText(bs[i])];
      i := i + 1;
    }
    assert bs[..i] == bs;
  }

  /**
    The same computation done the way the JavaScript engine does it: map the
    blocks, then join the strings left to right.
   */
  method ComputePlainText(blocks: Option<seq<Block>>) returns (text: string)
    ensures text == BlockContentToPlainText(blocks)
  {
    var texts := MapBlockTexts(blocks.GetOr([]));
    text := JoinLeftToRight(texts, BlockSeparator);
  }

  /**
    A text block is its spans' texts in order with no separator; a text block
    without spans contributes "".
   */
  lemma TextBlockIsConcatenation(b: Block)
    requires IsTextBlock(b)
    ensures BlockText(b) == Concat(SpanTexts(b.children.value))
  {
    JoinEmptySeparator(SpanTexts(b.children.value));
  }

  /**
    Each span's text appears unchanged inside its block at the position the
    earlier spans leave for it.
   */
  lemma TextBlockIsSpanConcatenation(b: Block, i: nat)
    requires IsTextBlock(b) && i < |b.children.value|
    ensures var texts := SpanTexts(b.children.value);
            var o := SumLen(texts[..i]);
            o + |texts[i]| <= |BlockText(b)| && BlockText(b)[o..o + |texts[i]|] == SpanText(b.children.value[i])
  {
    var texts := SpanTexts(b.children.value);
    JoinSlot(texts, "", i);
  }

  /**
    Each block keeps its own slot in the output, empty or not: block `i`'s
    text starts after the earlier blocks' texts and `i` separators.
   */
  lemma BlockSlot(blocks: seq<Block>, i: nat)
    requires i < |blocks|
    ensures var r := BlockContentToPlainText(Some(blocks));
            var o := Offset(BlockTexts(blocks), BlockSeparator, i);
            var n := |BlockText(blocks[i])|;
            o + n <= |r| && r[o..o + n] == BlockText(blocks[i])
  {
    var texts := BlockTexts(blocks);
    assert BlockContentToPlainText(Some(blocks)) == Join(texts, BlockSeparator);
    assert texts[i] == BlockText(blocks[i]);
    JoinSlot(texts, BlockSeparator, i);
  }

  /** A blank line follows every block but the last. */
  lemma BlockFollowedBySeparator(blocks: seq<Block>, i: nat)
    requires i + 1 < |blocks|
    ensures var r := BlockContentToPlainText(Some(blocks));
            var o := Offset(BlockTexts(blocks), BlockSeparator, i) + |BlockText(blocks[i])|;
            o + 2 <= |r| && r[o..o + 2] == BlockSeparator
  {
    var texts := BlockTexts(blocks);
    assert BlockContentToPlainText(Some(blocks)) == Join(texts, BlockSeparator) by {
      assert |blocks| > 0;
    }
    assert |texts[i]| == |BlockText(blocks[i])|;
    JoinSeparatorAfter(texts, BlockSeparator, i);
  }

  /**
    A block between two others that contributes nothing (an image, say)
    leaves two consecutive separators behind rather than disappearing.
   */
  lemma EmptyBlockKeepsItsSlot(blocks: seq<Block>, i: nat)
    requires 0 < i < |blocks| - 1
    requires BlockText(blocks[i]) == ""
    ensures var r := BlockContentToPlainText(Some(blocks));
            var o := Offset(BlockTexts(blocks), BlockSeparator, i);
            2 <= o && o + 2 <= |r| && r[o - 2..o + 2] == "\n\n\n\n"
  {
    JoinKeepsEmptyPart(BlockTexts(blocks), BlockSeparator, i);
  }

  /**
    The worked example: two text blocks around an image flatten to the
    texts with the image's empty slot kept between them.
   */
  lemma ImageBetweenTwoParagraphs()
    ensures BlockContentToPlainText(Some([
              Block(Some(Str("block")), Some([Span(Some(Str("Hello "))), Span(Some(Str("world")))])),
              Block(Some(Str("image")), None),
              Block(Some(Str("block")), Some([Span(Some(Str("Bye")))]))]))
            == "Hello world\n\n\n\nBye"
  {
    var hello := Block(Some(Str("block")), Some([Span(Some(Str("Hello "))), Span(Some(Str("world")))]));
    var image := Block(Some(Str("image")), None);
    var bye := Block(Some(Str("block")), Some([Span(Some(Str("Bye")))]));
    assert SpanTexts([Span(Some(Str("Hello "))), Span(Some(Str("world")))]) == ["Hello ", "world"];
    assert BlockText(hello) == "Hello world";
    assert BlockText(image) == "";
    assert SpanTexts([Span(Some(Str("Bye")))]) == ["Bye"];
    assert BlockText(bye) == "Bye";
    var texts := BlockTexts([hello, image, bye]);
    assert texts == ["Hello world", "", "Bye"];
    assert texts[1..][1..] == ["Bye"];
    assert Join(texts[1..], BlockSeparator) == "" + BlockSeparator + "Bye";
    assert Join(texts, BlockSeparator) == "Hello world" + BlockSeparator + ("" + BlockSeparator + "Bye");
  }
}
