/**
 * The Atlassian Document Format (ADF) documents the issue tracker uses for rich
 * text, as far as this client builds and reads them: a document holds block
 * nodes, a block holds inline nodes. A missing "type" or "text" key is `None`;
 * a missing "content" key is the empty list (the reader's `.get("content", [])`).
 */
module Adf {
  import opened Wrappers
  import opened Strings

  datatype Inline = Inline(kind: Option<string>, text: Option<string>)
  datatype Block = Block(kind: Option<string>, content: seq<Inline>)
  datatype Doc = Doc(kind: string, version: int, content: seq<Block>)

  const Placeholder := "No description"

  /** The one-paragraph, one-text-node document the client sends for a plain string. */
  function ParagraphDoc(s: string): Doc {
    Doc("doc", 1, [Block(Some("paragraph"), [Inline(Some("text"), Some(s))])])
  }

  predicate IsParagraph(b: Block) { b.kind == Some("paragraph") }
  predicate IsText(item: Inline) { item.kind == Some("text") }

  /** What a text node contributes: its "text", or "" when the key is missing. */
  function TextOf(item: Inline): string { item.text.GetOr("") }

  /** The contributions of the text nodes among `items`, in order. */
  function InlineTexts(items: seq<Inline>): seq<string> {
    if items == [] then []
    else (if IsText(items[0]) then [TextOf(items[0])] else []) + InlineTexts(items[1..])
  }

  function BlockTexts(b: Block): seq<string> {
    if IsParagraph(b) then InlineTexts(b.content) else []
  }

  /** The text parts collected from a document's blocks, in document order. */
  function Parts(blocks: seq<Block>): seq<string> {
    if blocks == [] then [] else BlockTexts(blocks[0]) + Parts(blocks[1..])
  }

  /** The flat text of a description; `None` stands for a falsy description. */
  function DescriptionText(description: Option<Doc>): string {
    if description.None? then Placeholder
    else
      var parts := Parts(description.value.content);
      if parts == [] then Placeholder else Join(parts, " ")
  }

  lemma {:induction false} InlineTextsAppend(a: seq<Inline>, b: seq<Inline>)
    ensures InlineTexts(a + b) == InlineTexts(a) + InlineTexts(b)
  {
    if a != [] {
      assert (a + b)[1..] == a[1..] + b;
      InlineTextsAppend(a[1..], b);
    } else {
      assert a + b == b;
    }
  }

  lemma {:induction false} PartsAppend(a: seq<Block>, b: seq<Block>)
    ensures Parts(a + b) == Parts(a) + Parts(b)
  {
    if a != [] {
      assert (a + b)[1..] == a[1..] + b;
      PartsAppend(a[1..], b);
    } else {
      assert a + b == b;
    }
  }

  lemma AppendAssoc(a: seq<string>, b: seq<string>, c: seq<string>)
    ensures (a + b) + c == a + (b + c)
  {
  }

  /** Collecting over one more inline node. */
  lemma InlineTextsSnoc(items: seq<Inline>, j: nat)
    requires j < |items|
    ensures InlineTexts(items[..j + 1]) ==
            InlineTexts(items[..j]) + (if IsText(items[j]) then [TextOf(items[j])] else [])
  {
    assert items[..j + 1] == items[..j] + [items[j]];
    InlineTextsAppend(items[..j], [items[j]]);
    assert [items[j]][1..] == [];
  }

  /** Collecting over one more block. */
  lemma PartsSnoc(blocks: seq<Block>, i: nat)
    requires i < |blocks|
    ensures Parts(blocks[..i + 1]) == Parts(blocks[..i]) + BlockTexts(blocks[i])
  {
    assert blocks[..i + 1] == blocks[..i] + [blocks[i]];
    PartsAppend(blocks[..i], [blocks[i]]);
    assert [blocks[i]][1..] == [];
  }

  /**
   * Extracts the plain text of a description: the "text" of every text node
   * inside a top-level paragraph, joined by single spaces, or the placeholder
   * when the description is falsy or yields no part.
   */
  method GetDescriptionText(description: Option<Doc>) returns (r: string)
    ensures r == DescriptionText(description)
  {
    if description.None? {
      return Placeholder;
    }
    var blocks := description.value.content;
    var textParts: seq<string> := [];
    var i := 0;
    while i < |blocks|
      invariant 0 <= i <= |blocks|
      invariant textParts == Parts(blocks[..i])
    {
      var block := blocks[i];
      PartsSnoc(blocks, i);
      if IsParagraph(block) {
        ghost var before := textParts;
        var items := block.content;
        var j := 0;
        while j < |items|
          invariant 0 <= j <= |items|
          invariant textParts == before + InlineTexts(items[..j])
        {
          var item := items[j];
          InlineTextsSnoc(items, j);
          if IsText(item) {
            AppendAssoc(before, InlineTexts(items[..j]), [TextOf(item)]);
            textParts := textParts + [TextOf(item)];
          }
          j := j + 1;
        }
        assert items[..j] == items;
      }
      i := i + 1;
    }
    assert blocks[..i] == blocks;
    r := if textParts != [] then Join(textParts, " ") else Placeholder;
  }

  /** Extracting the text of the document built for `s` gives back `s`. */
  lemma ParagraphDocRoundTrip(s: string)
    ensures DescriptionText(Some(ParagraphDoc(s))) == s
  {
    var d := ParagraphDoc(s);
    assert InlineTexts(d.content[0].content) == [s];
    assert Parts(d.content) == [s] + Parts([]);
  }

  /** A string is a part exactly when some text node of some top-level paragraph contributes it. */
  lemma {:induction false} InlineTextsMembership(items: seq<Inline>, x: string)
    ensures x in InlineTexts(items) <==>
            exists j :: 0 <= j < |items| && IsText(items[j]) && TextOf(items[j]) == x
  {
    if items != [] {
      var head := if IsText(items[0]) then [TextOf(items[0])] else [];
      assert InlineTexts(items) == head + InlineTexts(items[1..]);
      InlineTextsMembership(items[1..], x);
      if x in InlineTexts(items) {
        if x in head {
          assert IsText(items[0]) && TextOf(items[0]) == x;
        } else {
          var j :| 0 <= j < |items[1..]| && IsText(items[1..][j]) && TextOf(items[1..][j]) == x;
          assert items[j + 1] == items[1..][j];
        }
      }
      if exists j :: 0 <= j < |items| && IsText(items[j]) && TextOf(items[j]) == x {
        var j :| 0 <= j < |items| && IsText(items[j]) && TextOf(items[j]) == x;
        if j == 0 {
          assert x in head;
        } else {
          assert items[1..][j - 1] == items[j];
          assert x in InlineTexts(items[1..]);
        }
      }
    }
  }

  lemma {:induction false} PartsMembership(blocks: seq<Block>, x: string)
    ensures x in Parts(blocks) <==>
            exists i, j :: 0 <= i < |blocks| && IsParagraph(blocks[i]) &&
                           0 <= j < |blocks[i].content| && IsText(blocks[i].content[j]) &&
                           TextOf(blocks[i].content[j]) == x
  {
    if blocks != [] {
      var b := blocks[0];
      assert Parts(blocks) == BlockTexts(b) + Parts(blocks[1..]);
      PartsMembership(blocks[1..], x);
      InlineTextsMembership(b.content, x);
      if x in Parts(blocks) {
        if x in BlockTexts(b) {
          var j :| 0 <= j < |b.content| && IsText(b.content[j]) && TextOf(b.content[j]) == x;
        } else {
          var i, j :| 0 <= i < |blocks[1..]| && IsParagraph(blocks[1..][i]) &&
                      0 <= j < |blocks[1..][i].content| && IsText(blocks[1..][i].content[j]) &&
                      TextOf(blocks[1..][i].content[j]) == x;
          assert blocks[i + 1] == blocks[1..][i];
        }
      }
      if exists i, j :: 0 <= i < |blocks| && IsParagraph(blocks[i]) &&
                        0 <= j < |blocks[i].content| && IsText(blocks[i].content[j]) &&
                        TextOf(blocks[i].content[j]) == x {
        var i, j :| 0 <= i < |blocks| && IsParagraph(blocks[i]) &&
                    0 <= j < |blocks[i].content| && IsText(blocks[i].content[j]) &&
                    TextOf(blocks[i].content[j]) == x;
        if i == 0 {
          assert x in BlockTexts(b);
        } else {
          assert blocks[1..][i - 1] == blocks[i];
          assert x in Parts(blocks[1..]);
        }
      }
    }
  }

  /** A document without any text node inside a top-level paragraph reads as the placeholder. */
  lemma PlaceholderWithoutTextNodes(d: Doc)
    requires forall i, j ::
               (0 <= i < |d.content| && IsParagraph(d.content[i]) && 0 <= j < |d.content[i].content|)
               ==> !IsText(d.content[i].content[j])
    ensures DescriptionText(Some(d)) == Placeholder
  {
    if Parts(d.content) != [] {
      PartsMembership(d.content, Parts(d.content)[0]);
    }
  }

  /** Inserting a block that is not a paragraph leaves the extracted text unchanged. */
  lemma IgnoresNonParagraph(kind: string, version: int, pre: seq<Block>, b: Block, post: seq<Block>)
    requires !IsParagraph(b)
    ensures DescriptionText(Some(Doc(kind, version, pre + [b] + post))) ==
            DescriptionText(Some(Doc(kind, version, pre + post)))
  {
    PartsAppend(pre + [b], post);
    PartsAppend(pre, [b]);
    PartsAppend(pre, post);
    assert Parts([b]) == [] by {
      assert Parts([b]) == BlockTexts(b) + Parts([b][1..]);
      assert [b][1..] == [];
    }
    assert Parts(pre + [b]) == Parts(pre);
    assert Parts(pre + [b] + post) == Parts(pre + post);
  }

  /** Inserting an inline node that is not a text node into a paragraph leaves the extracted text unchanged. */
  lemma IgnoresNonTextInline(kind: string, version: int, before: seq<Block>, after: seq<Block>,
                             pre: seq<Inline>, item: Inline, post: seq<Inline>)
    requires !IsText(item)
    ensures var with := Block(Some("paragraph"), pre + [item] + post);
            var without := Block(Some("paragraph"), pre + post);
            DescriptionText(Some(Doc(kind, version, before + [with] + after))) ==
            DescriptionText(Some(Doc(kind, version, before + [without] + after)))
  {
    var with := Block(Some("paragraph"), pre + [item] + post);
    var without := Block(Some("paragraph"), pre + post);
    InlineTextsAppend(pre + [item], post);
    InlineTextsAppend(pre, [item]);
    InlineTextsAppend(pre, post);
    assert InlineTexts([item]) == [] by {
      assert InlineTexts([item]) == [] + InlineTexts([item][1..]);
      assert [item][1..] == [];
    }
    assert InlineTexts(pre + [item]) == InlineTexts(pre);
    assert BlockTexts(with) == BlockTexts(without);
    assert Parts([with]) == Parts([without]) by {
      assert [with][1..] == [] && [without][1..] == [];
      assert Parts([with]) == BlockTexts(with) + Parts([]);
      assert Parts([without]) == BlockTexts(without) + Parts([]);
    }
    PartsAppend(before + [with], after);
    PartsAppend(before, [with]);
    PartsAppend(before + [without], after);
    PartsAppend(before, [without]);
    assert Parts(before + [with] + after) == Parts(before + [without] + after);
  }

  /**
   * Document order and single spaces: the text of two runs of blocks that each
   * contribute something is the text of the first, one space, the text of the second.
   */
  lemma ConcatenatedBlocks(kind: string, version: int, a: seq<Block>, b: seq<Block>)
    requires Parts(a) != [] && Parts(b) != []
    ensures DescriptionText(Some(Doc(kind, version, a + b))) ==
            DescriptionText(Some(Doc(kind, version, a))) + " " + DescriptionText(Some(Doc(kind, version, b)))
  {
    PartsAppend(a, b);
    JoinAppend(Parts(a), Parts(b), " ");
  }

  /** Two one-text paragraphs "Hello" and "world" read as "Hello world". */
  lemma TwoParagraphs()
    ensures DescriptionText(Some(Doc("doc", 1, ParagraphDoc("Hello").content + ParagraphDoc("world").content)))
            == "Hello world"
  {
    ParagraphDocRoundTrip("Hello");
    ParagraphDocRoundTrip("world");
    ConcatenatedBlocks("doc", 1, ParagraphDoc("Hello").content, ParagraphDoc("world").content);
  }

  /** A text node without a "text" key contributes "" and still counts as a part. */
  lemma MissingTextKeyCountsAsPart(kind: string, version: int)
    ensures DescriptionText(Some(Doc(kind, version, [Block(Some("paragraph"), [Inline(Some("text"), None)])]))) == ""
  {
    var b := Block(Some("paragraph"), [Inline(Some("text"), None)]);
    assert InlineTexts(b.content) == [""] + InlineTexts([]);
    assert Parts([b]) == [""] + Parts([]);
  }
}
