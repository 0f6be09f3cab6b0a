/**
 The final body can be read back, contents list and all: where the list stands, what it lists, and
 every block before and after it.
 */
module Readback {
  import opened Options
  import opened Text
  import opened Inline
  import opened Tags
  import opened Segments
  import opened Blocks
  import opened Headings
  import opened Decoder
  import opened Contents
  import L = Layout
  import S = Slug

  datatype Part = BlockPart(block: Block) | TocPart(entries: seq<Entry>)

  const SECTION := "<section class=\"toc page-break\">"
  const TITLE := "<h2>\U{130}\U{E7}indekiler</h2>"
  const LIST := "<ul class=\"toc-list\">"
  const LEVEL2 := "<li class=\"toc-h2\">"
  const LEVEL3 := "<li class=\"toc-h3\">"

  // ---------------------------------------------------------------------- reading the list

  function DecodeEntry(s: string): (r: Option<(Entry, string)>)
    ensures r.Some? ==> |r.value.1| < |s|
  {
    var head := TagAt(s, 0);
    if head != LEVEL2 && head != LEVEL3 then None else
      match Eat(s, head)
      case None => None
      case Some(a) =>
        var link := TagAt(a, 0);
        if |link| < 12 then None else
          match Peel(a, link, "</a>", "</li>" + "\n")
          case None => None
          case Some(p) => Some((Entry(Title(if head == LEVEL3 then 3 else 2, Unmark(p.0)), link[10..|link| - 2]), p.1))
  }

  function DecodeEntries(s: string): (r: (seq<Entry>, string))
    ensures |r.1| <= |s|
    decreases |s|
  {
    match DecodeEntry(s)
    case None => ([], s)
    case Some(p) =>
      var q := DecodeEntries(p.1);
      ([p.0] + q.0, q.1)
  }

  function DecodeListed(c: string): Option<(seq<Entry>, string)> {
    var q := DecodeEntries(c);
    match Eat(q.1, "</ul>" + "\n")
    case None => None
    case Some(d) =>
      match Eat(d, "</section>" + "\n")
      case None => None
      case Some(e) => Some((q.0, e))
  }

  function DecodeToc(s: string): Option<(seq<Entry>, string)> {
    match Eat(s, SECTION + "\n")
    case None => None
    case Some(a) =>
      match Eat(a, TITLE + "\n")
      case None => None
      case Some(b) =>
        match Eat(b, LIST + "\n")
        case None => None
        case Some(c) => DecodeListed(c)
  }

  /** Blocks as far as they go, contents lists where there is no block. */
  function DecodeParts(s: string): seq<Part>
    decreases |s|
  {
    if s == "" then [] else
      match DecodeBlock(s)
      case Some(r) =>
        if |r.1| >= |s| then [] else
          (if r.0.Some? then [BlockPart(r.0.value)] else []) + DecodeParts(r.1)
      case None =>
        match DecodeToc(s)
        case None => []
        case Some(t) => if |t.1| >= |s| then [] else [TocPart(t.0)] + DecodeParts(t.1)
  }

  /** The blocks that show, as parts. */
  function Parts(blocks: seq<Block>): seq<Part> {
    if blocks == [] then [] else
      (if Normal(blocks[0]) == [] then [] else [BlockPart(Normal(blocks[0])[0])]) + Parts(blocks[1..])
  }

  // ----------------------------------------------------------------------------- one entry

  lemma LinkShape(slug: string)
    ensures var link := L.LinkOpen(slug); |link| == |slug| + 12 && link[10..|link| - 2] == slug
  {
    var a := "<a href=\"#";
    assert |a| == 10;
    assert L.LinkOpen(slug) == a + slug + "\">";
  }

  lemma EntryLevels()
    ensures LEVEL2 != LEVEL3
  {
    assert LEVEL2[16] == '2' && LEVEL3[16] == '3';
  }

  lemma OpenIs(e: Entry)
    ensures L.TocOpen(e) == if e.title.level == 3 then LEVEL3 else LEVEL2
  {}

  lemma LinkIsTag(slug: string)
    requires L.Bare(slug)
    ensures IsTag(L.LinkOpen(slug))
  {
    hide L.LinkOpen, L.Name, IsTag;
    L.LinkPair(slug);
  }

  lemma LinkCloses()
    ensures IsBlockTag("</a>") && IsTag("</a>")
  {}

  lemma LinkBack(slug: string, text: string, rest: string)
    requires L.Bare(slug)
    ensures var link := L.LinkOpen(slug);
      var a := link + InlineMarkup(text) + "</a>" + ("</li>" + "\n") + rest;
      && TagAt(a, 0) == link
      && Peel(a, link, "</a>", "</li>" + "\n") == Some((InlineMarkup(text), rest))
  {
    hide L.LinkOpen, L.Pair, L.Name, InlineMarkup, Sealed, Peel, TagAt, IsTag, IsBlockTag;
    var link := L.LinkOpen(slug);
    L.LinkPair(slug);
    LinkIsTag(slug);
    LinkCloses();
    InlineSealed(text, "</a>");
    PeelBack(link, InlineMarkup(text), "</a>", "</li>" + "\n", rest);
    TagAtHead(link, InlineMarkup(text) + "</a>" + ("</li>" + "\n") + rest);
    assert link + (InlineMarkup(text) + "</a>" + ("</li>" + "\n") + rest)
        == link + InlineMarkup(text) + "</a>" + ("</li>" + "\n") + rest;
  }

  lemma EntryBack(e: Entry, rest: string)
    requires L.Bare(e.slug) && InToc(e.title)
    ensures DecodeEntry(TocLine(e) + "\n" + rest) == Some((e, rest))
  {
    hide L.LinkOpen, L.TocOpen, L.Name, L.Bare, InlineMarkup, Peel, TagAt, IsTag, TocLine, Unmark;
    var open, link, x := L.TocOpen(e), L.LinkOpen(e.slug), InlineMarkup(e.title.text);
    var a := link + x + "</a>" + ("</li>" + "\n") + rest;
    L.TocLineIs(e);
    assert TocLine(e) + "\n" + rest == open + a;
    L.TocPair(e);
    OpenIs(e);
    EntryLevels();
    TagAtHead(open, a);
    EatPrefix(open, a);
    LinkBack(e.slug, e.title.text, rest);
    LinkShape(e.slug);
    InlineRoundTrip(e.title.text);
  }

  // ------------------------------------------------------------------------ the whole list

  lemma {:induction false} TocLinesCons(toc: seq<Entry>)
    requires toc != []
    ensures TocLines(toc) == [TocLine(toc[0])] + TocLines(toc[1..])
  {
    hide TocLine;
    if |toc| > 1 {
      var n := |toc| - 1;
      TocLinesCons(toc[..n]);
      assert toc[..n][1..] == toc[1..][..n - 1];
      assert toc[1..][n - 1] == toc[n];
    } else {
      assert toc[..0] == [] && toc[1..] == [];
      assert TocLines([]) == [];
    }
  }

  predicate Listable(toc: seq<Entry>) { forall e :: e in toc ==> L.Bare(e.slug) && InToc(e.title) }

  lemma NoEntry(rest: string)
    ensures DecodeEntry("</ul>" + rest) == None
  {
    hide Eat, Peel, TagAt, IsTag;
    SmallTags();
    TagAtHead("</ul>", rest);
    assert "</ul>"[1] == '/' && LEVEL2[1] == 'l' && LEVEL3[1] == 'l';
  }

  lemma NoLines()
    ensures TocLines([]) == [] && Terminated([]) == ""
  {}

  lemma {:induction false} EntriesBack(toc: seq<Entry>, rest: string)
    requires Listable(toc)
    ensures DecodeEntries(Terminated(TocLines(toc)) + ("</ul>" + rest)) == (toc, "</ul>" + rest)
  {
    hide DecodeEntry, TocLine, L.Bare, InToc, TocLines;
    if toc == [] {
      NoLines();
      NoEntry(rest);
      assert "" + ("</ul>" + rest) == "</ul>" + rest;
    } else {
      var more := Terminated(TocLines(toc[1..])) + ("</ul>" + rest);
      TocLinesCons(toc);
      assert ([TocLine(toc[0])] + TocLines(toc[1..]))[1..] == TocLines(toc[1..]);
      assert Terminated(TocLines(toc)) + ("</ul>" + rest) == TocLine(toc[0]) + "\n" + more;
      EntryBack(toc[0], more);
      EntriesBack(toc[1..], rest);
      assert toc == [toc[0]] + toc[1..];
    }
  }

  /** The text of the list, cut where the decoder cuts it. */
  lemma TocText(toc: seq<Entry>, rest: string)
    ensures TocHtml(toc) + "\n" + rest
         == SECTION + "\n" + (TITLE + "\n" + (LIST + "\n" + (Terminated(TocLines(toc))
            + ("</ul>" + ("\n" + ("</section>" + "\n" + rest))))))
  {
    hide TocLines, Terminated, Join;
    var lines := TocLines(toc);
    var tokens := [SECTION, TITLE, LIST] + lines + ["</ul>", "</section>"];
    assert tokens == [SECTION] + ([TITLE] + ([LIST] + (lines + (["</ul>"] + ["</section>"]))));
    JoinTerminated(tokens);
    TerminatedConcat([SECTION], [TITLE] + ([LIST] + (lines + (["</ul>"] + ["</section>"]))));
    TerminatedConcat([TITLE], [LIST] + (lines + (["</ul>"] + ["</section>"])));
    TerminatedConcat([LIST], lines + (["</ul>"] + ["</section>"]));
    TerminatedConcat(lines, ["</ul>"] + ["</section>"]);
    TerminatedConcat(["</ul>"], ["</section>"]);
    TerminatedOne(SECTION);
    TerminatedOne(TITLE);
    TerminatedOne(LIST);
    TerminatedOne("</ul>");
    TerminatedOne("</section>");
  }

  lemma ListedBack(toc: seq<Entry>, rest: string)
    requires Listable(toc)
    ensures DecodeListed(Terminated(TocLines(toc)) + ("</ul>" + ("\n" + ("</section>" + "\n" + rest))))
         == Some((toc, rest))
  {
    hide DecodeEntries, Eat, TocLines, Terminated, Listable;
    EntriesBack(toc, "\n" + ("</section>" + "\n" + rest));
    EatPrefix("</ul>" + "\n", "</section>" + "\n" + rest);
    assert "</ul>" + ("\n" + ("</section>" + "\n" + rest)) == "</ul>" + "\n" + ("</section>" + "\n" + rest);
    EatPrefix("</section>" + "\n", rest);
  }

  lemma TocBack(toc: seq<Entry>, rest: string)
    requires Listable(toc)
    ensures DecodeToc(TocHtml(toc) + "\n" + rest) == Some((toc, rest))
  {
    hide DecodeListed, Eat, TocLines, Terminated, Listable, TocHtml;
    var c := Terminated(TocLines(toc)) + ("</ul>" + ("\n" + ("</section>" + "\n" + rest)));
    TocText(toc, rest);
    EatPrefix(SECTION + "\n", TITLE + "\n" + (LIST + "\n" + c));
    EatPrefix(TITLE + "\n", LIST + "\n" + c);
    EatPrefix(LIST + "\n", c);
    ListedBack(toc, rest);
  }

  lemma SectionIsTag()
    ensures IsTag(SECTION)
  {
    hide IsTag;
    L.SectionPair();
  }

  lemma SectionIsNoBlock(y: string)
    ensures SECTION + y != "" && DecodeBlock(SECTION + y) == None
  {
    hide Peel, DecodeList, DecodeTable, TagAt, IsTag;
    SectionIsTag();
    TagAtHead(SECTION, y);
    assert SECTION[0] == '<' && SECTION[1] == 's' && SECTION[2] == 'e' && (SECTION + y)[0] == '<';
  }

  /** No block begins like a contents list. */
  lemma TocIsNoBlock(toc: seq<Entry>, rest: string)
    ensures TocHtml(toc) + "\n" + rest != "" && DecodeBlock(TocHtml(toc) + "\n" + rest) == None
  {
    hide Peel, DecodeList, DecodeTable, TocLines, Terminated, TocHtml, TagAt;
    TocText(toc, rest);
    SectionIsTag();
    var y := "\n" + (TITLE + "\n" + (LIST + "\n" + (Terminated(TocLines(toc))
      + ("</ul>" + ("\n" + ("</section>" + "\n" + rest))))));
    assert TocHtml(toc) + "\n" + rest == SECTION + y;
    SectionIsNoBlock(y);
  }

  // ------------------------------------------------------------------------ the whole body

  function FirstPart(b: Block): seq<Part> {
    if Normal(b) == [] then [] else [BlockPart(Normal(b)[0])]
  }

  lemma PartsStep(b: Block, rest: string)
    requires Shown(b) != ""
    requires DecodeBlock(Shown(b) + rest) == Some((if Normal(b) == [] then None else Some(Normal(b)[0]), rest))
    ensures DecodeParts(Shown(b) + rest) == FirstPart(b) + DecodeParts(rest)
  {
    hide DecodeBlock, DecodeToc, Shown, Normal;
  }

  lemma Regroup(a: seq<Part>, b: seq<Part>, c: seq<Part>)
    ensures a + (b + c) == a + b + c
  {}

  lemma {:induction false} PartsBack(blocks: seq<Block>, tail: string)
    requires forall b :: b in blocks ==> Readable(b)
    ensures DecodeParts(Terminated(Tokens(blocks)) + tail) == Parts(blocks) + DecodeParts(tail)
    decreases |blocks|
  {
    hide DecodeBlock, DecodeToc, RenderBlock, Terminated, Normal, Readable;
    if blocks == [] {
      TerminatedNothing();
      assert "" + tail == tail && [] + DecodeParts(tail) == DecodeParts(tail);
    } else {
      var b, bs := blocks[0], blocks[1..];
      var rest := Terminated(Tokens(bs)) + tail;
      PartsBack(bs, tail);
      TerminatedConcat(RenderBlock(b), Tokens(bs));
      if b == Blank {
        BlankShown();
        assert Terminated(Tokens(blocks)) + tail == rest && [] + Parts(bs) == Parts(bs);
      } else {
        OneBack(b, rest);
        OneAtMost(b);
        assert Terminated(Tokens(blocks)) + tail == Shown(b) + rest;
        PartsStep(b, rest);
        Regroup(FirstPart(b), Parts(bs), DecodeParts(tail));
      }
    }
  }

  lemma TocStep(toc: seq<Entry>, rest: string)
    requires Listable(toc)
    ensures DecodeParts(TocHtml(toc) + "\n" + rest) == [TocPart(toc)] + DecodeParts(rest)
  {
    hide DecodeBlock, DecodeToc, TocHtml, Listable;
    TocIsNoBlock(toc, rest);
    TocBack(toc, rest);
  }

  lemma NothingLeft()
    ensures DecodeParts("") == []
  {}

  /** A body with its contents list after block `p`. */
  lemma ListedBodyBack(blocks: seq<Block>, p: nat, toc: seq<Entry>)
    requires p < |blocks| && Listable(toc) && forall b :: b in blocks ==> Readable(b)
    ensures DecodeParts(Join(Tokens(blocks[..p + 1]) + [TocHtml(toc)] + Tokens(blocks[p + 1..]), "\n") + "\n")
         == Parts(blocks[..p + 1]) + [TocPart(toc)] + Parts(blocks[p + 1..])
  {
    hide Terminated, Tokens, Join, Readable, Listable, TocHtml, DecodeParts, Parts;
    var a, b, html := Tokens(blocks[..p + 1]), Tokens(blocks[p + 1..]), TocHtml(toc);
    JoinTerminated(a + [html] + b);
    TerminatedConcat(a + [html], b);
    TerminatedConcat(a, [html]);
    TerminatedOne(html);
    assert Terminated(a + [html] + b) == Terminated(a) + (html + "\n" + (Terminated(b) + ""));
    PartsBack(blocks[..p + 1], html + "\n" + (Terminated(b) + ""));
    TocStep(toc, Terminated(b) + "");
    PartsBack(blocks[p + 1..], "");
    NothingLeft();
    assert Parts(blocks[p + 1..]) + [] == Parts(blocks[p + 1..]);
    Regroup(Parts(blocks[..p + 1]), [TocPart(toc)], Parts(blocks[p + 1..]));
  }

  lemma OneBreak()
    ensures DecodeParts("" + "\n") == DecodeParts("" + "") == []
  {
    EmptyLine("");
    assert "\n" + "" == "\n" && "" + "\n" == "\n" && "" + "" == "";
  }

  lemma PlainBodyBack(blocks: seq<Block>)
    requires forall b :: b in blocks ==> Readable(b)
    ensures DecodeParts(RenderDoc(blocks) + "\n") == Parts(blocks)
  {
    hide Terminated, Tokens, Join, Readable, DecodeParts, Parts;
    PartsBack(blocks, "");
    NothingLeft();
    assert Parts(blocks) + [] == Parts(blocks);
    if Tokens(blocks) == [] {
      TerminatedNothing();
      NoTokens();
      OneBreak();
    } else {
      JoinTerminated(Tokens(blocks));
      assert Terminated(Tokens(blocks)) + "" == Terminated(Tokens(blocks));
    }
  }

  lemma TocIsListable(u: Unicode, lines: seq<string>)
    ensures Listable(Toc(u, lines))
  {
    hide Collected, AllSlugs, TocEntries, S.IsSlug, InToc;
    AllSlugsDistinct(u, lines);
    forall e | e in Toc(u, lines) ensures L.Bare(e.slug) && InToc(e.title) {
      var k := EntryOf(Collected(lines), AllSlugs(u, lines), e);
      SlugIsPlain(AllSlugs(u, lines)[k]);
    }
  }

  /** Whatever the text, the body that goes into the page reads back as its blocks with the contents
      list after the first heading of level 1, or as its blocks alone if there is none. */
  lemma BodyReadsBack(u: Unicode, lines: seq<string>)
    ensures var blocks, toc := Report(u, lines), Toc(u, lines);
      var parts := DecodeParts(Insert(RenderDoc(blocks), TocHtml(toc)) + "\n");
      && ((forall p :: 0 <= p < |blocks| ==> !IsH1(blocks[p])) ==> parts == Parts(blocks))
      && (forall p :: FirstH1(blocks, p) ==>
            parts == Parts(blocks[..p + 1]) + [TocPart(toc)] + Parts(blocks[p + 1..]))
  {
    hide Report, Insert, RenderDoc, Tokens, Join, IsH1, Readable, TocHtml, Toc, Listable, DecodeParts, Parts;
    var blocks, toc := Report(u, lines), Toc(u, lines);
    forall b | b in blocks ensures Readable(b) {
      var p :| 0 <= p < |blocks| && blocks[p] == b;
      ReportReadable(u, lines, p);
    }
    TocIsListable(u, lines);
    Inserted(u, lines, TocHtml(toc));
    PlainBodyBack(blocks);
    forall p | FirstH1(blocks, p)
      ensures DecodeParts(Insert(RenderDoc(blocks), TocHtml(toc)) + "\n")
           == Parts(blocks[..p + 1]) + [TocPart(toc)] + Parts(blocks[p + 1..])
    {
      ListedBodyBack(blocks, p, toc);
    }
  }
}
