/**
 The contents list: how it is rendered, where `main` puts it into the body, and the whole pipeline
 from text to body.
 */
module Contents {
  import opened Options
  import opened Text
  import opened Html
  import opened Inline
  import opened Segments
  import opened Blocks
  import opened Renderer
  import opened Slug
  import opened Headings
  import opened Tags
  import opened Decoder

  const H1 := "</h1>"

  // ------------------------------------------------------------------- rendering

  function TocLine(e: Entry): string {
    "<li class=\"" + (if e.title.level == 3 then "toc-h3" else "toc-h2") + "\"><a href=\"#" + e.slug + "\">"
    + InlineMarkup(e.title.text) + "</a></li>"
  }

  function TocLines(toc: seq<Entry>): seq<string> {
    if toc == [] then [] else TocLines(toc[..|toc| - 1]) + [TocLine(toc[|toc| - 1])]
  }

  function TocHtml(toc: seq<Entry>): string {
    Join(["<section class=\"toc page-break\">", "<h2>\U{130}\U{E7}indekiler</h2>", "<ul class=\"toc-list\">"]
         + TocLines(toc) + ["</ul>", "</section>"], "\n")
  }

  method RenderToc(toc: seq<Entry>) returns (html: string)
    ensures html == TocHtml(toc)
  {
    hide TocLine, Join;
    var out := ["<section class=\"toc page-break\">", "<h2>\U{130}\U{E7}indekiler</h2>", "<ul class=\"toc-list\">"];
    ghost var head := out;
    assert toc[..0] == [];
    for k := 0 to |toc|
      invariant out == head + TocLines(toc[..k])
    {
      out := out + [TocLine(toc[k])];
      assert toc[..k + 1][..k] == toc[..k];
    }
    assert toc[..|toc|] == toc;
    out := out + ["</ul>", "</section>"];
    html := Join(out, "\n");
  }

  // -------------------------------------------------------------------- insertion

  /** `body.replace("</h1>", "</h1>\n" + toc, 1)`. */
  function Insert(body: string, toc: string): string {
    var n := Find(body, H1);
    if n == |body| then body else body[..n] + (H1 + "\n" + toc) + body[n + |H1|..]
  }

  ghost predicate AllSealed(tokens: seq<string>) { forall t :: t in tokens ==> Sealed(t, H1) }

  lemma H1IsTag()
    ensures IsBlockTag(H1) && IsTag(H1)
  {}

  lemma TagSealed(t: string)
    requires IsTag(t) && t != H1
    ensures Sealed(t, H1)
  {
    SealedTag(t, H1);
  }

  lemma TwoTagsSealed(a: string, b: string)
    requires IsTag(a) && a != H1 && IsTag(b) && b != H1
    ensures Sealed(a + b, H1)
  {
    hide IsTag, Sealed;
    TagSealed(a);
    TagSealed(b);
    SealedConcat(a, b, H1);
  }

  lemma ElementSealed(open: string, text: string, close: string)
    requires IsTag(open) && open != H1 && IsTag(close) && close != H1
    ensures Sealed(Element(open, text, close), H1)
  {
    hide IsTag, Sealed, InlineMarkup, IsBlockTag;
    TagSealed(open);
    TagSealed(close);
    H1IsTag();
    InlineSealed(text, H1);
    SealedConcat(open, InlineMarkup(text), H1);
    SealedConcat(open + InlineMarkup(text), close, H1);
  }

  lemma {:induction false} ElementsSealed(open: string, texts: seq<string>, close: string)
    requires IsTag(open) && open != H1 && IsTag(close) && close != H1
    ensures AllSealed(Elements(open, texts, close))
  {
    hide IsTag, Sealed, Element;
    if texts != [] {
      ElementSealed(open, texts[0], close);
      ElementsSealed(open, texts[1..], close);
    }
  }

  lemma {:induction false} JoinSealed(tokens: seq<string>)
    requires AllSealed(tokens)
    ensures Sealed(Join(tokens, "\n"), H1)
  {
    hide Sealed;
    SealedPlain("", H1);
    SealedPlain("\n", H1);
    if |tokens| > 1 {
      JoinSealed(tokens[1..]);
      SealedConcat(tokens[0], "\n", H1);
      SealedConcat(tokens[0] + "\n", Join(tokens[1..], "\n"), H1);
    }
  }

  lemma SmallTags()
    ensures IsTag("<p>") && IsTag("</p>") && IsTag("<ul>") && IsTag("</ul>") && IsTag("<li>") && IsTag("</li>")
    ensures IsTag("<tr>") && IsTag("</tr>") && IsTag("<th>") && IsTag("</th>") && IsTag("<td>") && IsTag("</td>")
  {}

  lemma LargeTags()
    ensures IsTag("<table>") && IsTag("</table>") && IsTag("<thead>") && IsTag("</thead>")
  {}

  lemma LargerTags()
    ensures IsTag("<tbody>") && IsTag("</tbody>") && IsTag("<pre>") && IsTag("</pre>")
    ensures IsTag("<code>") && IsTag("</code>")
  {}

  lemma {:induction false} RowTokensSealed(rows: seq<seq<string>>)
    ensures AllSealed(RowTokens(rows))
  {
    hide IsTag, Sealed, Elements;
    if rows != [] {
      SmallTags();
      TagSealed("<tr>");
      TagSealed("</tr>");
      ElementsSealed("<td>", rows[0], "</td>");
      RowTokensSealed(rows[1..]);
    }
  }

  lemma TableTokensSealed(rows: seq<seq<string>>)
    ensures AllSealed(TableTokens(rows))
  {
    hide IsTag, Sealed, Elements, RowTokens;
    if rows != [] {
      SmallTags();
      LargeTags();
      LargerTags();
      TagSealed("<table>");
      TagSealed("</table>");
      TagSealed("<tbody>");
      TagSealed("</tbody>");
      TwoTagsSealed("<thead>", "<tr>");
      assert "<thead>" + "<tr>" == "<thead><tr>";
      TwoTagsSealed("</tr>", "</thead>");
      assert "</tr>" + "</thead>" == "</tr></thead>";
      ElementsSealed("<th>", rows[0], "</th>");
      RowTokensSealed(rows[1..]);
    }
  }

  predicate IsH1(b: Block) { b.Heading? && b.title.level == 1 }

  lemma HeadTags(level: nat, id: Option<string>)
    requires 1 <= level < 10 && (id.Some? ==> '<' !in id.value && '>' !in id.value)
    ensures IsTag(HeadOpen(level, id)) && HeadOpen(level, id) != H1
    ensures IsTag(HeadClose(level)) && (HeadClose(level) == H1 <==> level == 1)
  {
    HeadShape(level, id);
    assert Decimal(level) == [Digit(level)];
    assert HeadClose(level)[3] == Digit(level);
    assert HeadClose(1) == H1;
  }

  lemma FenceSealed(code: string)
    ensures Sealed("<pre><code>" + Escape(code) + "</code></pre>", H1)
  {
    hide IsTag, Sealed, Escape;
    LargerTags();
    TwoTagsSealed("<pre>", "<code>");
    assert "<pre>" + "<code>" == "<pre><code>";
    TwoTagsSealed("</code>", "</pre>");
    assert "</code>" + "</pre>" == "</code></pre>";
    EscapeLeavesNoMarkup(code);
    SealedPlain(Escape(code), H1);
    SealedConcat("<pre><code>", Escape(code), H1);
    SealedConcat("<pre><code>" + Escape(code), "</code></pre>", H1);
  }

  /** A block other than a first-level heading never shows the closing tag of one. */
  lemma BlockSealed(b: Block)
    requires Readable(b) && !IsH1(b)
    ensures AllSealed(RenderBlock(b))
  {
    hide IsTag, Sealed, Element, Elements, TableTokens, Join, HeadOpen, HeadClose, Escape;
    SmallTags();
    match b
    case Blank =>
    case Fence(code) => FenceSealed(code);
    case Caption(text) =>
      CaptionOpenShape();
      ElementSealed(CaptionOpen(), text, "</p>");
    case Heading(t, id) =>
      HeadTags(t.level, id);
      ElementSealed(HeadOpen(t.level, id), t.text, HeadClose(t.level));
    case Paragraph(text) => ElementSealed("<p>", text, "</p>");
    case Bullets(items) =>
      TagSealed("<ul>");
      TagSealed("</ul>");
      ElementsSealed("<li>", items, "</li>");
    case Table(rows) =>
      TableTokensSealed(rows);
      JoinSealed(TableTokens(rows));
  }

  lemma {:induction false} TokensSealed(blocks: seq<Block>)
    requires forall b :: b in blocks ==> Readable(b) && !IsH1(b)
    ensures AllSealed(Tokens(blocks))
  {
    hide Sealed, RenderBlock, Readable;
    if blocks != [] {
      BlockSealed(blocks[0]);
      TokensSealed(blocks[1..]);
    }
  }

  lemma {:induction false} TerminatedSealed(tokens: seq<string>)
    requires AllSealed(tokens)
    ensures Sealed(Terminated(tokens), H1)
  {
    hide Sealed;
    SealedPlain("", H1);
    SealedPlain("\n", H1);
    if tokens != [] {
      TerminatedSealed(tokens[1..]);
      SealedConcat(tokens[0], "\n", H1);
      SealedConcat(tokens[0] + "\n", Terminated(tokens[1..]), H1);
    }
  }

  function Tail(tokens: seq<string>): string {
    if tokens == [] then "" else "\n" + Join(tokens, "\n")
  }

  lemma JoinCons(t: string, ts: seq<string>)
    ensures Join([t] + ts, "\n") == t + Tail(ts)
  {
    assert ([t] + ts)[1..] == ts;
    assert t + "" == t;
    if ts != [] {
      assert t + "\n" + Join(ts, "\n") == t + ("\n" + Join(ts, "\n"));
    }
  }

  lemma {:induction false} JoinSplit(a: seq<string>, t: string, b: seq<string>)
    ensures Join(a + [t] + b, "\n") == Terminated(a) + t + Tail(b)
  {
    hide Join;
    if a == [] {
      assert a + [t] + b == [t] + b;
      JoinCons(t, b);
      assert "" + t == t;
    } else {
      var rest := a[1..] + [t] + b;
      assert a + [t] + b == [a[0]] + rest;
      JoinCons(a[0], rest);
      JoinSplit(a[1..], t, b);
      assert a[0] + ("\n" + (Terminated(a[1..]) + t + Tail(b))) == (a[0] + "\n" + Terminated(a[1..])) + t + Tail(b);
    }
  }

  lemma {:induction false} TokensConcat(a: seq<Block>, b: seq<Block>)
    ensures Tokens(a + b) == Tokens(a) + Tokens(b)
  {
    hide RenderBlock;
    if a == [] {
      assert a + b == b;
    } else {
      TokensConcat(a[1..], b);
      assert (a + b)[1..] == a[1..] + b;
      Regroup(RenderBlock(a[0]), Tokens(a[1..]), Tokens(b));
    }
  }

  /** What stands before the closing tag of the heading `p`. */
  function UpToClose(blocks: seq<Block>, p: nat): string
    requires p < |blocks| && IsH1(blocks[p])
  {
    Terminated(Tokens(blocks[..p])) + (HeadOpen(1, blocks[p].id) + InlineMarkup(blocks[p].title.text))
  }

  lemma OpenSealed(t: Title, id: Option<string>)
    requires Readable(Heading(t, id))
    ensures Sealed(HeadOpen(t.level, id) + InlineMarkup(t.text), H1)
  {
    hide Sealed, HeadOpen, HeadClose, InlineMarkup, IsTag;
    HeadTags(t.level, id);
    TagSealed(HeadOpen(t.level, id));
    H1IsTag();
    InlineSealed(t.text, H1);
    SealedConcat(HeadOpen(t.level, id), InlineMarkup(t.text), H1);
  }

  lemma UpToCloseSealed(blocks: seq<Block>, p: nat)
    requires p < |blocks| && IsH1(blocks[p]) && Readable(blocks[p])
    requires forall q :: 0 <= q < p ==> Readable(blocks[q]) && !IsH1(blocks[q])
    ensures Sealed(UpToClose(blocks, p), H1)
  {
    hide Sealed, HeadOpen, InlineMarkup, Readable, Terminated, Tokens;
    TokensSealed(blocks[..p]);
    TerminatedSealed(Tokens(blocks[..p]));
    assert Readable(Heading(blocks[p].title, blocks[p].id));
    OpenSealed(blocks[p].title, blocks[p].id);
    SealedConcat(Terminated(Tokens(blocks[..p])), HeadOpen(1, blocks[p].id) + InlineMarkup(blocks[p].title.text), H1);
  }

  lemma OneToken(b: Block)
    ensures Tokens([b]) == RenderBlock(b)
  {
    hide RenderBlock;
    assert [b][1..] == [];
    assert RenderBlock(b) + [] == RenderBlock(b);
  }

  lemma HeadSplit1(blocks: seq<Block>, p: nat)
    requires p < |blocks| && IsH1(blocks[p]) && Readable(blocks[p])
    ensures var token := HeadOpen(1, blocks[p].id) + InlineMarkup(blocks[p].title.text) + H1;
      && Tokens(blocks) == Tokens(blocks[..p]) + [token] + Tokens(blocks[p + 1..])
      && Tokens(blocks[..p + 1]) == Tokens(blocks[..p]) + [token]
  {
    hide HeadOpen, InlineMarkup, Tokens;
    var one := [blocks[p]];
    HeadTags(1, blocks[p].id);
    OneToken(blocks[p]);
    assert blocks[..p + 1] == blocks[..p] + one;
    assert blocks == blocks[..p + 1] + blocks[p + 1..];
    TokensConcat(blocks[..p], one);
    TokensConcat(blocks[..p + 1], blocks[p + 1..]);
  }

  lemma SplitAtClose(blocks: seq<Block>, p: nat, html: string)
    requires p < |blocks| && IsH1(blocks[p]) && Readable(blocks[p])
    ensures var after := Tokens(blocks[p + 1..]);
      && RenderDoc(blocks) == UpToClose(blocks, p) + (H1 + Tail(after))
      && Join(Tokens(blocks[..p + 1]) + [html] + after, "\n") == UpToClose(blocks, p) + (H1 + "\n" + html) + Tail(after)
  {
    hide HeadOpen, InlineMarkup, Readable, Terminated, Tokens, Tail, Join;
    var before, after := Tokens(blocks[..p]), Tokens(blocks[p + 1..]);
    var token := HeadOpen(1, blocks[p].id) + InlineMarkup(blocks[p].title.text) + H1;
    HeadSplit1(blocks, p);
    JoinSplit(before, token, after);
    JoinSplit(before + [token], html, after);
    TerminatedConcat(before, [token]);
    TerminatedOne(token);
  }

  lemma InsertAt(x: string, y: string, html: string)
    requires Find(x + (H1 + y), H1) == |x|
    ensures Insert(x + (H1 + y), html) == x + (H1 + "\n" + html) + y
  {
    hide Find;
    var body := x + (H1 + y);
    assert body[..|x|] == x && body[|x| + |H1|..] == y;
  }

  /** The contents list becomes the line after the first first-level heading; nothing else moves. */
  lemma InsertAfterHeading(blocks: seq<Block>, p: nat, html: string)
    requires p < |blocks| && IsH1(blocks[p]) && Readable(blocks[p])
    requires forall q :: 0 <= q < p ==> Readable(blocks[q]) && !IsH1(blocks[q])
    ensures Insert(RenderDoc(blocks), html)
         == Join(Tokens(blocks[..p + 1]) + [html] + Tokens(blocks[p + 1..]), "\n")
  {
    hide Sealed, UpToClose, Readable, Find, IsTag, Join, Tail, Tokens, RenderDoc, Insert;
    var x, y := UpToClose(blocks, p), Tail(Tokens(blocks[p + 1..]));
    SplitAtClose(blocks, p, html);
    UpToCloseSealed(blocks, p);
    H1IsTag();
    FindAfter(x, H1, y);
    InsertAt(x, y, html);
  }

  /** Without a first-level heading the body stays as it is. */
  lemma InsertNowhere(blocks: seq<Block>, html: string)
    requires forall b :: b in blocks ==> Readable(b) && !IsH1(b)
    ensures Insert(RenderDoc(blocks), html) == RenderDoc(blocks)
  {
    hide Sealed, Find, IsTag, Join, Tokens, Readable;
    TokensSealed(blocks);
    JoinSealed(Tokens(blocks));
    H1IsTag();
    FindNowhere(RenderDoc(blocks), H1);
  }

  // ------------------------------------------------------------- the whole pipeline

  lemma SlugIsPlain(s: string)
    requires IsSlug(s)
    ensures s != "" && '<' !in s && '>' !in s
  {}

  lemma HeadingLevel(u: Unicode, lines: seq<string>, p: nat)
    requires p < |Spans(u, lines)| && Spans(u, lines)[p].kind == HeadingK
    ensures 1 <= TitleAt(lines[Spans(u, lines)[p].lo]).level <= 4
  {
    hide TitleAt, KindAt, IsSpan, IsSegmentation, Segment;
    SegmentationUnique(u, lines, Spans(u, lines), 0);
    SegmentationAt(u, lines, Spans(u, lines), p);
    SpanKind(u, lines, Spans(u, lines)[p]);
    HeadingLine(u, lines, Spans(u, lines)[p].lo);
  }

  /** Whatever the text, its block list is one the decoder can read back. */
  lemma ReportReadable(u: Unicode, lines: seq<string>, p: nat)
    requires p < |Report(u, lines)|
    ensures Readable(Report(u, lines)[p])
  {
    hide Report, RenderedTitles, Collected, AllSlugs, TitleAt, IsSlug, Spans;
    IdAt(u, lines, p);
    if Report(u, lines)[p].Heading? {
      HeadingLevel(u, lines, p);
      AllSlugsDistinct(u, lines);
      var k := |RenderedTitles(lines, Spans(u, lines), p)|;
      if k < |Collected(lines)| {
        SlugIsPlain(AllSlugs(u, lines)[k]);
      }
    }
  }

  function Toc(u: Unicode, lines: seq<string>): seq<Entry> {
    TocEntries(Collected(lines), AllSlugs(u, lines))
  }

  predicate FirstH1(blocks: seq<Block>, p: nat) {
    p < |blocks| && IsH1(blocks[p]) && forall q :: 0 <= q < p ==> !IsH1(blocks[q])
  }

  lemma ReportIs(u: Unicode, lines: seq<string>)
    ensures Report(u, lines) == Document(u, lines, IdMap(Collected(lines), SlugsOf(u, Collected(lines))))
    ensures Toc(u, lines) == TocEntries(Collected(lines), SlugsOf(u, Collected(lines)))
  {
    hide Collected, Document;
  }

  lemma Inserted(u: Unicode, lines: seq<string>, html: string)
    ensures var blocks, body := Report(u, lines), Insert(RenderDoc(Report(u, lines)), html);
      && ((forall p :: 0 <= p < |blocks| ==> !IsH1(blocks[p])) ==> body == RenderDoc(blocks))
      && (forall p :: FirstH1(blocks, p) ==>
            body == Join(Tokens(blocks[..p + 1]) + [html] + Tokens(blocks[p + 1..]), "\n"))
  {
    hide Report, Insert, RenderDoc, Tokens, Join, IsH1, Readable;
    var blocks := Report(u, lines);
    forall p | 0 <= p < |blocks| ensures Readable(blocks[p]) {
      ReportReadable(u, lines, p);
    }
    if forall p :: 0 <= p < |blocks| ==> !IsH1(blocks[p]) {
      InsertNowhere(blocks, html);
    }
    forall p | FirstH1(blocks, p)
      ensures Insert(RenderDoc(blocks), html) == Join(Tokens(blocks[..p + 1]) + [html] + Tokens(blocks[p + 1..]), "\n")
    {
      InsertAfterHeading(blocks, p, html);
    }
  }

  /** From the text to the body that `build_html` wraps. */
  method BuildBody(u: Unicode, text: string) returns (body: string)
    ensures var blocks, html := Report(u, SplitLines(text)), TocHtml(Toc(u, SplitLines(text)));
      && ((forall p :: 0 <= p < |blocks| ==> !IsH1(blocks[p])) ==> body == RenderDoc(blocks))
      && (forall p :: FirstH1(blocks, p) ==>
            body == Join(Tokens(blocks[..p + 1]) + [html] + Tokens(blocks[p + 1..]), "\n"))
  {
    hide *;
    var toc, ids := CollectToc(u, text);
    body := RenderMarkdown(u, text, ids);
    var html := RenderToc(toc);
    body := Insert(body, html);
    ReportIs(u, SplitLines(text));
    Inserted(u, SplitLines(text), html);
  }

  /** The rendering of any text can be read back to its blocks. */
  lemma ReportRoundTrip(u: Unicode, lines: seq<string>)
    ensures Decode(RenderDoc(Report(u, lines)) + "\n") == Normals(Report(u, lines))
  {
    hide Report, Decode, RenderDoc, Readable, Normals;
    var blocks := Report(u, lines);
    forall p | 0 <= p < |blocks| ensures Readable(blocks[p]) {
      ReportReadable(u, lines, p);
    }
    BodyRoundTrip(blocks);
  }

  /** The positions of the headings of level 2 and 3. */
  function Listed(hs: seq<Title>): seq<nat> {
    if hs == [] then [] else
      var n := |hs| - 1;
      Listed(hs[..n]) + if InToc(hs[n]) then [n] else []
  }

  lemma {:induction false} ListedWhich(hs: seq<Title>, k: int)
    ensures k in Listed(hs) <==> 0 <= k < |hs| && InToc(hs[k])
  {
    hide InToc;
    if hs != [] {
      ListedWhich(hs[..|hs| - 1], k);
    }
  }

  lemma {:induction false} ListedInOrder(hs: seq<Title>)
    ensures forall i, j :: 0 <= i < j < |Listed(hs)| ==> Listed(hs)[i] < Listed(hs)[j]
  {
    hide InToc;
    if hs != [] {
      var n := |hs| - 1;
      var before := Listed(hs[..n]);
      ListedInOrder(hs[..n]);
      forall i | 0 <= i < |before| ensures before[i] < n {
        ListedWhich(hs[..n], before[i]);
      }
    }
  }

  /** The positions are increasing, and they are all there are. */
  lemma ListedAll(hs: seq<Title>)
    ensures forall k :: k in Listed(hs) <==> 0 <= k < |hs| && InToc(hs[k])
    ensures forall i, j :: 0 <= i < j < |Listed(hs)| ==> Listed(hs)[i] < Listed(hs)[j]
  {
    hide InToc, Listed;
    ListedInOrder(hs);
    forall k ensures k in Listed(hs) <==> 0 <= k < |hs| && InToc(hs[k]) {
      ListedWhich(hs, k);
    }
  }

  lemma {:induction false} TocAt(hs: seq<Title>, slugs: seq<string>)
    requires |hs| == |slugs|
    ensures var toc, ks := TocEntries(hs, slugs), Listed(hs);
      && |toc| == |ks|
      && forall i :: 0 <= i < |ks| ==> ks[i] < |hs| && toc[i] == Entry(hs[ks[i]], slugs[ks[i]])
  {
    hide InToc;
    if hs != [] {
      TocAt(hs[..|hs| - 1], slugs[..|hs| - 1]);
    }
  }

  /** The contents list names exactly the collected headings of level 2 and 3, each once, in order,
      and each with its own slug. */
  lemma TocIs(hs: seq<Title>, slugs: seq<string>)
    requires |hs| == |slugs|
    ensures var toc, ks := TocEntries(hs, slugs), Listed(hs);
      && |toc| == |ks|
      && (forall k :: k in ks <==> 0 <= k < |hs| && InToc(hs[k]))
      && (forall i, j :: 0 <= i < j < |ks| ==> ks[i] < ks[j])
      && (forall i :: 0 <= i < |ks| ==> ks[i] in ks && toc[i] == Entry(hs[ks[i]], slugs[ks[i]]))
  {
    hide InToc, Listed, TocEntries;
    ListedAll(hs);
    TocAt(hs, slugs);
  }

  lemma EntryOf(hs: seq<Title>, slugs: seq<string>, e: Entry) returns (k: nat)
    requires |hs| == |slugs| && e in TocEntries(hs, slugs)
    ensures k < |hs| && InToc(hs[k]) && e == Entry(hs[k], slugs[k])
  {
    hide InToc, TocEntries, Listed;
    TocIs(hs, slugs);
    var i :| 0 <= i < |TocEntries(hs, slugs)| && TocEntries(hs, slugs)[i] == e;
    k := Listed(hs)[i];
  }

  /** In a text without level-4 headings and fenced look-alikes, every contents link has one target. */
  lemma TocLinkResolves(u: Unicode, lines: seq<string>, e: Entry) returns (p: nat)
    requires e in Toc(u, lines)
    requires var spans := Spans(u, lines);
      Level4Before(lines, spans, |spans|) == FencedBefore(lines, spans, |spans|) == 0
    ensures p < |Report(u, lines)| && HasAnchor(Report(u, lines)[p], e.slug)
    ensures forall q :: 0 <= q < |Report(u, lines)| && q != p ==> !HasAnchor(Report(u, lines)[q], e.slug)
  {
    hide Report, Collected, AllSlugs, Level4Before, FencedBefore, TocEntries, Spans, IsSlug;
    var blocks := Report(u, lines);
    var k := EntryOf(Collected(lines), AllSlugs(u, lines), e);
    AllLinksResolve(u, lines, k);
    p :| 0 <= p < |blocks| && HasAnchor(blocks[p], e.slug);
    forall q | 0 <= q < |blocks| && q != p ensures !HasAnchor(blocks[q], e.slug) {
      if HasAnchor(blocks[q], e.slug) {
        AnchorsDistinct(u, lines, if p < q then p else q, if p < q then q else p);
      }
    }
  }
}
