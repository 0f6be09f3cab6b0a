/**
 `render_table` and `render_markdown` as the loops they are, proved to produce the HTML of the
 block list that `Segments` and `Blocks` define.
 */
module Renderer {
  import opened Options
  import opened Text
  import opened Html
  import opened Inline
  import opened Segments
  import opened Blocks

  lemma {:induction false} RowsSnoc(lines: seq<string>, line: string)
    ensures Rows(lines + [line]) == Rows(lines) + if IsRuleRow(Cells(line)) then [] else [Cells(line)]
  {
    hide Cells, IsRuleRow;
    if lines == [] {
      assert [] + [line] == [line];
      assert [line][1..] == [];
    } else {
      RowsSnoc(lines[1..], line);
      assert (lines + [line])[1..] == lines[1..] + [line];
    }
  }

  lemma {:induction false} ElementsSnoc(open: string, texts: seq<string>, text: string, close: string)
    ensures Elements(open, texts + [text], close) == Elements(open, texts, close) + [Element(open, text, close)]
  {
    hide Element;
    if texts == [] {
      assert [] + [text] == [text];
      assert [text][1..] == [];
    } else {
      ElementsSnoc(open, texts[1..], text, close);
      assert (texts + [text])[1..] == texts[1..] + [text];
    }
  }

  lemma {:induction false} RowTokensSnoc(rows: seq<seq<string>>, row: seq<string>)
    ensures RowTokens(rows + [row]) == RowTokens(rows) + (["<tr>"] + Elements("<td>", row, "</td>") + ["</tr>"])
  {
    hide Elements;
    if rows == [] {
      assert [] + [row] == [row];
      assert [row][1..] == [];
    } else {
      RowTokensSnoc(rows[1..], row);
      assert (rows + [row])[1..] == rows[1..] + [row];
    }
  }

  lemma ElementsNothing(open: string, close: string)
    ensures Elements(open, [], close) == []
  {}

  method AppendElements(out: seq<string>, open: string, texts: seq<string>, close: string)
    returns (out': seq<string>)
    ensures out' == out + Elements(open, texts, close)
  {
    hide Element, Elements;
    ElementsNothing(open, close);
    out' := out;
    for k := 0 to |texts|
      invariant out' == out + Elements(open, texts[..k], close)
    {
      out' := out' + [Element(open, texts[k], close)];
      ElementsSnoc(open, texts[..k], texts[k], close);
      assert texts[..k + 1] == texts[..k] + [texts[k]];
    }
    assert texts[..|texts|] == texts;
  }

  method CollectRows(lines: seq<string>) returns (rows: seq<seq<string>>)
    ensures rows == Rows(lines)
  {
    hide Cells, IsRuleRow;
    rows := [];
    for k := 0 to |lines|
      invariant rows == Rows(lines[..k])
    {
      var cells := Cells(lines[k]);
      RowsSnoc(lines[..k], lines[k]);
      assert lines[..k + 1] == lines[..k] + [lines[k]];
      if !IsRuleRow(cells) {
        rows := rows + [cells];
      }
    }
    assert lines[..|lines|] == lines;
  }

  method AppendRows(out: seq<string>, rows: seq<seq<string>>) returns (out': seq<string>)
    ensures out' == out + RowTokens(rows)
  {
    hide Element, Elements;
    out' := out;
    for k := 0 to |rows|
      invariant out' == out + RowTokens(rows[..k])
    {
      out' := out' + ["<tr>"];
      out' := AppendElements(out', "<td>", rows[k], "</td>");
      out' := out' + ["</tr>"];
      RowTokensSnoc(rows[..k], rows[k]);
      assert rows[..k + 1] == rows[..k] + [rows[k]];
    }
    assert rows[..|rows|] == rows;
  }

  lemma JoinNothing(sep: string)
    ensures Join([], sep) == ""
  {}

  method RenderTable(lines: seq<string>) returns (html: string)
    ensures html == Join(TableTokens(Rows(lines)), "\n")
  {
    hide Rows, Elements, RowTokens, Join;
    var rows := CollectRows(lines);
    if rows == [] {
      JoinNothing("\n");
      return "";
    }
    var out := ["<table>"];
    var header, body := rows[0], rows[1..];
    out := out + ["<thead><tr>"];
    out := AppendElements(out, "<th>", header, "</th>");
    out := out + ["</tr></thead>"];
    ghost var head := out;
    if body != [] {
      out := out + ["<tbody>"];
      out := AppendRows(out, body);
      out := out + ["</tbody>"];
      assert out == head + (["<tbody>"] + RowTokens(body) + ["</tbody>"]);
    } else {
      assert out == head + [];
    }
    out := out + ["</table>"];
    html := Join(out, "\n");
  }

  // --------------------------------------------------------------- the main loop

  /** The output still due from line `i` on, with `k` headings behind. */
  ghost function Due(u: Unicode, lines: seq<string>, ids: map<string, string>, i: nat, k: nat): seq<string>
    requires i <= |lines|
  {
    SegmentInRange(u, lines, i);
    Tokens(BlocksOf(u, lines, Segment(u, lines, i), ids, k))
  }

  lemma DueStep(u: Unicode, lines: seq<string>, ids: map<string, string>, i: nat, k: nat)
    requires i < |lines|
    ensures var s := SpanAt(u, lines, i);
      Due(u, lines, ids, i, k) ==
      RenderBlock(BlockOf(u, lines, s, ids, k))
      + Due(u, lines, ids, s.hi, if s.kind == HeadingK then k + 1 else k)
  {
    hide KindAt, SpanAt, BlockOf, RenderBlock;
    SegmentInRange(u, lines, i);
    var s := SpanAt(u, lines, i);
    var rest := Segment(u, lines, s.hi);
    SegmentInRange(u, lines, s.hi);
    assert Segment(u, lines, i) == [s] + rest;
    assert ([s] + rest)[1..] == rest;
    var k' := if s.kind == HeadingK then k + 1 else k;
    var bs := BlocksOf(u, lines, rest, ids, k');
    assert BlocksOf(u, lines, [s] + rest, ids, k) == [BlockOf(u, lines, s, ids, k)] + bs;
    assert ([BlockOf(u, lines, s, ids, k)] + bs)[1..] == bs;
  }

  /** Lines `start..i` are pending in the buffer of kind `kind`. */
  ghost predicate Pending(u: Unicode, lines: seq<string>, kind: Kind, start: nat, i: nat) {
    && (kind == ItemK || kind == PlainK)
    && start < i <= |lines|
    && forall m :: start <= m < i ==> KindAt(u, lines, m) == kind
  }

  lemma PendingIsSpan(u: Unicode, lines: seq<string>, kind: Kind, start: nat, i: nat)
    requires Pending(u, lines, kind, start, i)
    requires i < |lines| ==> KindAt(u, lines, i) != kind
    ensures SpanAt(u, lines, start) == Span(kind, start, i)
  {
    hide KindAt;
    SpanUnique(u, lines, Span(kind, start, i));
  }

  /** What the two buffers hold when the loop stands at line `i`: at most one of them is in use,
      and it holds the lines from `start` on. */
  ghost predicate Buffers(u: Unicode, lines: seq<string>, paragraph: seq<string>, items: seq<string>, start: nat,
                          i: nat) {
    && start <= i <= |lines|
    && (paragraph == [] || items == [])
    && (paragraph != [] ==> Pending(u, lines, PlainK, start, i) && paragraph == StripAll(lines[start..i]))
    && (items != [] ==> Pending(u, lines, ItemK, start, i) && items == Items(u, lines[start..i]))
    && (paragraph == [] && items == [] ==> start == i)
  }

  function ParagraphTokens(paragraph: seq<string>): seq<string> {
    if paragraph == [] then [] else RenderBlock(Paragraph(Strip(Join(paragraph, " "))))
  }

  function ListTokens(items: seq<string>): seq<string> {
    if items == [] then [] else RenderBlock(Bullets(items))
  }

  method FlushParagraph(out: seq<string>, paragraph: seq<string>) returns (out': seq<string>)
    ensures out' == out + ParagraphTokens(paragraph)
  {
    out' := out;
    if paragraph != [] {
      out' := out' + ["<p>" + InlineMarkup(Strip(Join(paragraph, " "))) + "</p>"];
    }
  }

  method FlushList(out: seq<string>, items: seq<string>) returns (out': seq<string>)
    ensures out' == out + ListTokens(items)
  {
    hide Element, Elements;
    out' := out;
    if items != [] {
      out' := out' + ["<ul>"];
      out' := AppendElements(out', "<li>", items, "</li>");
      out' := out' + ["</ul>"];
    }
  }

  /** The loop invariant: the buffers are in order, and the output so far together with what is
      due from the start of the buffered lines is the whole output. */
  ghost predicate Sound(u: Unicode, lines: seq<string>, ids: map<string, string>, whole: seq<string>,
                        out: seq<string>, paragraph: seq<string>, items: seq<string>, start: nat, i: nat, k: nat) {
    && Buffers(u, lines, paragraph, items, start, i)
    && out + Due(u, lines, ids, start, k) == whole
  }

  lemma Regroup(a: seq<string>, b: seq<string>, c: seq<string>)
    ensures a + (b + c) == (a + b) + c
  {}

  lemma ParagraphFlushed(u: Unicode, lines: seq<string>, ids: map<string, string>, whole: seq<string>,
                         out: seq<string>, paragraph: seq<string>, items: seq<string>, start: nat, i: nat, k: nat)
    requires Sound(u, lines, ids, whole, out, paragraph, items, start, i, k)
    requires i < |lines| ==> KindAt(u, lines, i) != PlainK
    ensures Sound(u, lines, ids, whole, out + ParagraphTokens(paragraph), [], items,
                  if paragraph == [] then start else i, i, k)
  {
    hide KindAt, SpanAt, RenderBlock, Due, StripAll, Items, Join, Strip, Rows, TitleAt, Key, Lookup, IsFenceLine;
    if paragraph == [] {
      assert out + [] == out;
    } else {
      PendingIsSpan(u, lines, PlainK, start, i);
      DueStep(u, lines, ids, start, k);
      Regroup(out, ParagraphTokens(paragraph), Due(u, lines, ids, i, k));
    }
  }

  lemma ListFlushed(u: Unicode, lines: seq<string>, ids: map<string, string>, whole: seq<string>,
                    out: seq<string>, paragraph: seq<string>, items: seq<string>, start: nat, i: nat, k: nat)
    requires Sound(u, lines, ids, whole, out, paragraph, items, start, i, k)
    requires i < |lines| ==> KindAt(u, lines, i) != ItemK
    ensures Sound(u, lines, ids, whole, out + ListTokens(items), paragraph, [],
                  if items == [] then start else i, i, k)
  {
    hide KindAt, SpanAt, RenderBlock, Due, StripAll, Items, Join, Strip, Rows, TitleAt, Key, Lookup, IsFenceLine;
    if items == [] {
      assert out + [] == out;
    } else {
      PendingIsSpan(u, lines, ItemK, start, i);
      DueStep(u, lines, ids, start, k);
      Regroup(out, ListTokens(items), Due(u, lines, ids, i, k));
    }
  }

  lemma {:induction false} StripAllSnoc(lines: seq<string>, line: string)
    ensures StripAll(lines + [line]) == StripAll(lines) + [Strip(line)]
  {
    hide Strip;
    if lines == [] {
      assert [] + [line] == [line];
    } else {
      StripAllSnoc(lines[1..], line);
      assert (lines + [line])[1..] == lines[1..] + [line];
    }
  }

  lemma {:induction false} ItemsSnoc(u: Unicode, lines: seq<string>, line: string)
    ensures Items(u, lines + [line]) == Items(u, lines) + [ItemText(u, line)]
  {
    hide ItemText;
    if lines == [] {
      assert [] + [line] == [line];
    } else {
      ItemsSnoc(u, lines[1..], line);
      assert (lines + [line])[1..] == lines[1..] + [line];
    }
  }

  lemma PendingGrows(u: Unicode, lines: seq<string>, kind: Kind, start: nat, i: nat)
    requires i < |lines| && KindAt(u, lines, i) == kind && (kind == ItemK || kind == PlainK)
    requires start == i || Pending(u, lines, kind, start, i)
    ensures Pending(u, lines, kind, start, i + 1)
  {
    hide KindAt;
  }

  lemma ParagraphGrows(u: Unicode, lines: seq<string>, ids: map<string, string>, whole: seq<string>,
                       out: seq<string>, paragraph: seq<string>, start: nat, i: nat, k: nat)
    requires Sound(u, lines, ids, whole, out, paragraph, [], start, i, k)
    requires i < |lines| && KindAt(u, lines, i) == PlainK
    ensures Sound(u, lines, ids, whole, out, paragraph + [Strip(lines[i])], [], start, i + 1, k)
  {
    hide KindAt, Due, Strip, Pending;
    hide StripAll;
    PendingGrows(u, lines, PlainK, start, i);
    assert lines[start..i + 1] == lines[start..i] + [lines[i]];
    StripAllSnoc(lines[start..i], lines[i]);
  }

  lemma ListGrows(u: Unicode, lines: seq<string>, ids: map<string, string>, whole: seq<string>,
                  out: seq<string>, items: seq<string>, start: nat, i: nat, k: nat)
    requires Sound(u, lines, ids, whole, out, [], items, start, i, k)
    requires i < |lines| && KindAt(u, lines, i) == ItemK
    ensures Sound(u, lines, ids, whole, out, [], items + [ItemText(u, lines[i])], start, i + 1, k)
  {
    hide KindAt, Due, ItemText, Items, Pending;
    PendingGrows(u, lines, ItemK, start, i);
    assert lines[start..i + 1] == lines[start..i] + [lines[i]];
    ItemsSnoc(u, lines[start..i], lines[i]);
  }

  lemma BlockDone(u: Unicode, lines: seq<string>, ids: map<string, string>, whole: seq<string>,
                  out: seq<string>, start: nat, i: nat, k: nat)
    requires Sound(u, lines, ids, whole, out, [], [], start, i, k) && i < |lines|
    ensures var s := SpanAt(u, lines, i);
      Sound(u, lines, ids, whole, out + RenderBlock(BlockOf(u, lines, s, ids, k)), [], [], s.hi, s.hi,
            if s.kind == HeadingK then k + 1 else k)
  {
    hide KindAt, SpanAt, RenderBlock, BlockOf, Due;
    var s := SpanAt(u, lines, i);
    DueStep(u, lines, ids, i, k);
    Regroup(out, RenderBlock(BlockOf(u, lines, s, ids, k)),
            Due(u, lines, ids, s.hi, if s.kind == HeadingK then k + 1 else k));
  }

  lemma AllDone(u: Unicode, lines: seq<string>, ids: map<string, string>, out: seq<string>, start: nat, k: nat)
    requires Sound(u, lines, ids, Due(u, lines, ids, 0, 0), out, [], [], start, |lines|, k)
    ensures out == Tokens(Document(u, lines, ids))
  {
    hide KindAt;
  }

  method CollectFence(lines: seq<string>, i: nat) returns (code: seq<string>, j: nat)
    requires i <= |lines|
    ensures j == NextFence(lines, i) && code == lines[i..j]
  {
    hide IsFenceLine;
    code, j := [], i;
    while j < |lines| && !IsFenceLine(lines[j])
      invariant i <= j <= |lines| && code == lines[i..j]
      invariant NextFence(lines, i) == NextFence(lines, j)
    {
      code := code + [lines[j]];
      j := j + 1;
    }
  }

  method CollectTable(lines: seq<string>, i: nat) returns (rows: seq<string>, j: nat)
    requires i <= |lines|
    ensures j == PipeEnd(lines, i) && rows == lines[i..j]
  {
    hide IsPipeLine;
    rows, j := [], i;
    while j < |lines| && IsPipeLine(lines[j])
      invariant i <= j <= |lines| && rows == lines[i..j]
      invariant PipeEnd(lines, i) == PipeEnd(lines, j)
    {
      rows := rows + [lines[j]];
      j := j + 1;
    }
  }

  method RenderFence(u: Unicode, lines: seq<string>, ids: map<string, string>, i: nat, k: nat)
    returns (token: string, next: nat)
    requires i < |lines| && KindAt(u, lines, i) == FenceK
    ensures next == SpanAt(u, lines, i).hi
    ensures [token] == RenderBlock(BlockOf(u, lines, SpanAt(u, lines, i), ids, k))
  {
    hide KindAt, IsFenceLine, Escape;
    var code;
    code, next := CollectFence(lines, i + 1);
    token := "<pre><code>" + Escape(Join(code, "\n")) + "</code></pre>";
    if next < |lines| {
      next := next + 1;
    }
  }

  method RenderTableAt(u: Unicode, lines: seq<string>, ids: map<string, string>, i: nat, k: nat)
    returns (token: string, next: nat)
    requires i < |lines| && KindAt(u, lines, i) == TableK
    ensures next == SpanAt(u, lines, i).hi
    ensures [token] == RenderBlock(BlockOf(u, lines, SpanAt(u, lines, i), ids, k))
  {
    hide KindAt, IsPipeLine, Rows, TableTokens;
    TableLine(u, lines, i);
    var rows;
    rows, next := CollectTable(lines, i);
    token := RenderTable(rows);
  }

  function CaptionElement(text: string): string { Element("<p class=\"figure-caption\">", text, "</p>") }

  function HeadingElement(t: Title, id: Option<string>): string {
    Element(HeadOpen(t.level, id), t.text, HeadClose(t.level))
  }

  /** The blocks of one line that are rendered at once. */
  lemma LineIsBlock(u: Unicode, lines: seq<string>, ids: map<string, string>, i: nat, k: nat)
    requires i < |lines|
    ensures var s := SpanAt(u, lines, i);
      var tokens, t := RenderBlock(BlockOf(u, lines, s, ids, k)), TitleAt(lines[i]);
      && s.kind == KindAt(u, lines, i)
      && (s.kind in {BlankK, CaptionK, HeadingK} ==> s.hi == i + 1)
      && (s.kind == BlankK ==> tokens == [])
      && (s.kind == CaptionK ==> tokens == [CaptionElement(Strip(lines[i]))])
      && (s.kind == HeadingK ==> tokens == [HeadingElement(t, Lookup(ids, Key(t, k)))])
  {
    hide KindAt, Element, HeadOpen, HeadClose, TitleAt, Key, Lookup, Strip, Rows, Items, TableTokens;
  }

  /** The chain of tests at a line. */
  lemma KindIs(u: Unicode, lines: seq<string>, i: nat)
    requires i < |lines|
    ensures var s, kind := Strip(lines[i]), KindAt(u, lines, i);
      kind == if IsFence(s) then FenceK
              else if s == "" then BlankK
              else if IsPipe(s) && i + 1 < |lines| && IsPipe(Strip(lines[i + 1])) then TableK
              else if IsCaption(s) then CaptionK
              else if HeadingOf(s, 4).Some? then HeadingK
              else if ItemOf(u, s).Some? then ItemK
              else PlainK
    ensures HeadingOf(Strip(lines[i]), 4).Some? ==> TitleAt(lines[i]) == HeadingOf(Strip(lines[i]), 4).value
    ensures ItemOf(u, Strip(lines[i])).Some? ==> ItemText(u, lines[i]) == ItemOf(u, Strip(lines[i])).value
  {
    hide Strip, IsFence, IsPipe, IsCaption, HeadingOf, ItemOf;
  }

  /** Both buffers are flushed, the paragraph first; since one of them is empty, the output is the
      block that was pending. */
  method FlushBoth(u: Unicode, lines: seq<string>, ghost ids: map<string, string>, ghost whole: seq<string>,
                   out: seq<string>, paragraph: seq<string>, items: seq<string>,
                   ghost start: nat, i: nat, ghost k: nat) returns (out': seq<string>)
    requires Sound(u, lines, ids, whole, out, paragraph, items, start, i, k)
    requires i < |lines| ==> KindAt(u, lines, i) != PlainK && KindAt(u, lines, i) != ItemK
    ensures Sound(u, lines, ids, whole, out', [], [], i, i, k)
  {
    hide KindAt, Due, Pending, Items, StripAll, ParagraphTokens, ListTokens;
    ParagraphFlushed(u, lines, ids, whole, out, paragraph, items, start, i, k);
    ghost var start' := if paragraph == [] then start else i;
    out' := FlushParagraph(out, paragraph);
    ListFlushed(u, lines, ids, whole, out', [], items, start', i, k);
    out' := FlushList(out', items);
  }

  lemma SoundAtStart(u: Unicode, lines: seq<string>, ids: map<string, string>)
    ensures Sound(u, lines, ids, Due(u, lines, ids, 0, 0), [], [], [], 0, 0, 0)
  {
    hide Due;
  }

  lemma DocIsJoin(blocks: seq<Block>)
    ensures RenderDoc(blocks) == Join(Tokens(blocks), "\n")
  {}

  /** One walk over the lines; the result is the rendering of the declared block list. */
  method RenderMarkdown(u: Unicode, text: string, ids: map<string, string>) returns (html: string)
    ensures html == RenderDoc(Document(u, SplitLines(text), ids))
  {
    hide *;
    var lines := SplitLines(text);
    var out: seq<string>, paragraph: seq<string>, items: seq<string> := [], [], [];
    var headingIndex: nat, i: nat := 0, 0;
    ghost var start: nat := 0;
    ghost var whole := Due(u, lines, ids, 0, 0);
    SoundAtStart(u, lines, ids);
    while i < |lines|
      invariant i <= |lines|
      invariant Sound(u, lines, ids, whole, out, paragraph, items, start, i, headingIndex)
      decreases |lines| - i
    {
      var stripped, token := Strip(lines[i]), "";
      KindIs(u, lines, i);
      LineIsBlock(u, lines, ids, i, headingIndex);
      if IsFence(stripped) {
        out := FlushBoth(u, lines, ids, whole, out, paragraph, items, start, i, headingIndex);
        BlockDone(u, lines, ids, whole, out, i, i, headingIndex);
        paragraph, items := [], [];
        token, i := RenderFence(u, lines, ids, i, headingIndex);
        out, start := out + [token], i;
        continue;
      }
      if stripped == "" {
        out := FlushBoth(u, lines, ids, whole, out, paragraph, items, start, i, headingIndex);
        BlockDone(u, lines, ids, whole, out, i, i, headingIndex);
        assert out + [] == out;
        paragraph, items := [], [];
        i, start := i + 1, i + 1;
        continue;
      }
      if IsPipe(stripped) && i + 1 < |lines| && IsPipe(Strip(lines[i + 1])) {
        out := FlushBoth(u, lines, ids, whole, out, paragraph, items, start, i, headingIndex);
        BlockDone(u, lines, ids, whole, out, i, i, headingIndex);
        paragraph, items := [], [];
        token, i := RenderTableAt(u, lines, ids, i, headingIndex);
        out, start := out + [token], i;
        continue;
      }
      if IsCaption(stripped) {
        out := FlushBoth(u, lines, ids, whole, out, paragraph, items, start, i, headingIndex);
        BlockDone(u, lines, ids, whole, out, i, i, headingIndex);
        paragraph, items := [], [];
        out := out + [CaptionElement(stripped)];
        i, start := i + 1, i + 1;
        continue;
      }
      var heading := HeadingOf(stripped, 4);
      if heading.Some? {
        out := FlushBoth(u, lines, ids, whole, out, paragraph, items, start, i, headingIndex);
        BlockDone(u, lines, ids, whole, out, i, i, headingIndex);
        paragraph, items := [], [];
        out := out + [HeadingElement(heading.value, Lookup(ids, Key(heading.value, headingIndex)))];
        headingIndex := headingIndex + 1;
        i, start := i + 1, i + 1;
        continue;
      }
      var item := ItemOf(u, stripped);
      if item.Some? {
        ParagraphFlushed(u, lines, ids, whole, out, paragraph, items, start, i, headingIndex);
        start := if paragraph == [] then start else i;
        out := FlushParagraph(out, paragraph);
        paragraph := [];
        ListGrows(u, lines, ids, whole, out, items, start, i, headingIndex);
        items := items + [item.value];
        i := i + 1;
        continue;
      }
      ListFlushed(u, lines, ids, whole, out, paragraph, items, start, i, headingIndex);
      start := if items == [] then start else i;
      out := FlushList(out, items);
      items := [];
      ParagraphGrows(u, lines, ids, whole, out, paragraph, start, i, headingIndex);
      paragraph := paragraph + [stripped];
      i := i + 1;
    }
    out := FlushBoth(u, lines, ids, whole, out, paragraph, items, start, i, headingIndex);
    AllDone(u, lines, ids, out, i, headingIndex);
    DocIsJoin(Document(u, lines, ids));
    html := Join(out, "\n");
  }
}
