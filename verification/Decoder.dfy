/**
 The rendered body can be read back. `Decode` parses the finished string, lines joined and all, and
 returns the block list it came from, so that two documents with the same HTML have the same
 blocks. Blank lines and tables without rows leave nothing to read.
 */
module Decoder {
  import opened Options
  import opened Text
  import opened Html
  import opened Inline
  import opened Segments
  import opened Blocks
  import opened Tags

  // ---------------------------------------------------------------- reading pieces

  function Eat(s: string, p: string): (r: Option<string>)
    ensures r.Some? ==> |r.value| + |p| == |s|
  {
    if p <= s then Some(s[|p|..]) else None
  }

  /** One element: `open`, content, `close`, `tail`. Returns the content and what follows. */
  function Peel(s: string, open: string, close: string, tail: string): (r: Option<(string, string)>)
    requires close != ""
    ensures r.Some? ==> |r.value.1| < |s|
  {
    match Eat(s, open)
    case None => None
    case Some(body) =>
      var n := Find(body, close);
      if n == |body| then None else
        match Eat(body[n + |close|..], tail)
        case None => None
        case Some(rest) => Some((body[..n], rest))
  }

  /** As many elements as follow, one to a line. */
  function PeelMany(s: string, open: string, close: string): (r: (seq<string>, string))
    requires close != ""
    ensures |r.1| <= |s|
    decreases |s|
  {
    match Peel(s, open, close, "\n")
    case None => ([], s)
    case Some(p) =>
      var q := PeelMany(p.1, open, close);
      ([Unmark(p.0)] + q.0, q.1)
  }

  function DecodeRows(s: string): (r: (seq<seq<string>>, string))
    ensures |r.1| <= |s|
    decreases |s|
  {
    match Eat(s, "<tr>" + "\n")
    case None => ([], s)
    case Some(a) =>
      var cells := PeelMany(a, "<td>", "</td>");
      match Eat(cells.1, "</tr>" + "\n")
      case None => ([], s)
      case Some(b) =>
        var q := DecodeRows(b);
        ([cells.0] + q.0, q.1)
  }

  type Reading = Option<(Option<Block>, string)>

  function DecodeTableEnd(rows: seq<seq<string>>, e: string): Reading {
    match Eat(e, "</table>" + "\n")
    case None => None
    case Some(f) => Some((Some(Table(rows)), f))
  }

  function DecodeBody(header: seq<string>, c: string): Reading {
    match Eat(c, "<tbody>" + "\n")
    case Some(d) =>
      (var rows := DecodeRows(d);
       match Eat(rows.1, "</tbody>" + "\n")
       case None => None
       case Some(e) => DecodeTableEnd([header] + rows.0, e))
    case None => DecodeTableEnd([header], c)
  }

  function DecodeTable(s: string): Reading {
    match Eat(s, "<table>" + "\n")
    case None => None
    case Some(a) =>
      match Eat(a, "<thead><tr>" + "\n")
      case None => None
      case Some(b) =>
        var header := PeelMany(b, "<th>", "</th>");
        match Eat(header.1, "</tr></thead>" + "\n")
        case None => None
        case Some(c) => DecodeBody(header.0, c)
  }

  function DecodeList(s: string): Reading {
    match Eat(s, "<ul>" + "\n")
    case None => None
    case Some(a) =>
      var items := PeelMany(a, "<li>", "</li>");
      match Eat(items.1, "</ul>" + "\n")
      case None => None
      case Some(b) => Some((Some(Bullets(items.0)), b))
  }

  /** The opening tag says the level, and the anchor if there is one. */
  function DecodeHeading(s: string, head: string): Reading {
    if |head| < 4 || !IsDigit(head[2]) then None else
      var level := DigitValue(head[2]);
      var id := if |head| < 10 then None else Some(head[8..|head| - 2]);
      match Peel(s, head, HeadClose(level), "\n")
      case None => None
      case Some(p) => Some((Some(Heading(Title(level, Unmark(p.0)), id)), p.1))
  }

  function DecodeBlock(s: string): Reading
    requires s != ""
  {
    if s[0] == '\n' then Some((None, s[1..])) else
      var head := TagAt(s, 0);
      if head == "<p>" then
        match Peel(s, head, "</p>", "\n") case None => None case Some(p) => Some((Some(Paragraph(Unmark(p.0))), p.1))
      else if head == "<p class=\"figure-caption\">" then
        match Peel(s, head, "</p>", "\n") case None => None case Some(p) => Some((Some(Caption(Unmark(p.0))), p.1))
      else if head == "<pre>" then
        match Peel(s, "<pre><code>", "</code>", "</pre>" + "\n")
        case None => None
        case Some(p) => Some((Some(Fence(Unescape(p.0))), p.1))
      else if head == "<ul>" then DecodeList(s)
      else if head == "<table>" then DecodeTable(s)
      else DecodeHeading(s, head)
  }

  function Decode(s: string): seq<Block>
    decreases |s|
  {
    if s == "" then [] else
      match DecodeBlock(s)
      case None => []
      case Some(r) =>
        if |r.1| >= |s| then [] else
          (if r.0.Some? then [r.0.value] else []) + Decode(r.1)
  }

  // ------------------------------------------------------------- what is expected

  predicate Readable(b: Block) {
    b.Heading? ==>
      && 1 <= b.title.level < 10
      && (b.id.Some? ==> '<' !in b.id.value && '>' !in b.id.value)
  }

  /** A block without what the HTML does not show. */
  function Normal(b: Block): seq<Block> {
    match b
    case Blank => []
    case Table(rows) => if rows == [] then [] else [b]
    case Heading(t, id) => [Heading(t, if id == Some("") then None else id)]
    case _ => [b]
  }

  function Normals(blocks: seq<Block>): seq<Block> {
    if blocks == [] then [] else Normal(blocks[0]) + Normals(blocks[1..])
  }

  // ------------------------------------------------------------- lines and tokens

  function Terminated(tokens: seq<string>): string {
    if tokens == [] then "" else tokens[0] + "\n" + Terminated(tokens[1..])
  }

  lemma {:induction false} TerminatedConcat(a: seq<string>, b: seq<string>)
    ensures Terminated(a + b) == Terminated(a) + Terminated(b)
  {
    if a == [] {
      assert a + b == b;
    } else {
      TerminatedConcat(a[1..], b);
      assert (a + b)[1..] == a[1..] + b;
    }
  }

  lemma TerminatedOne(t: string)
    ensures Terminated([t]) == t + "\n"
  {
    assert [t][1..] == [];
  }

  lemma {:induction false} JoinTerminated(tokens: seq<string>)
    requires tokens != []
    ensures Join(tokens, "\n") + "\n" == Terminated(tokens)
  {
    if |tokens| == 1 {
      TerminatedOne(tokens[0]);
      assert tokens == [tokens[0]];
    } else {
      JoinTerminated(tokens[1..]);
      assert Join(tokens, "\n") + "\n" == tokens[0] + "\n" + (Join(tokens[1..], "\n") + "\n");
    }
  }

  // ---------------------------------------------------------------- piece by piece

  lemma EatPrefix(p: string, x: string)
    ensures Eat(p + x, p) == Some(x)
  {
    assert (p + x)[|p|..] == x;
  }

  lemma PeelBack(open: string, body: string, close: string, tail: string, rest: string)
    requires IsTag(close) && Sealed(body, close)
    ensures close != "" && Peel(open + body + close + tail + rest, open, close, tail) == Some((body, rest))
  {
    hide Eat, IsTag, Sealed, Find;
    TagIsNonempty(close);
    var s := body + (close + (tail + rest));
    assert open + body + close + tail + rest == open + s;
    EatPrefix(open, s);
    FindAfter(body, close, tail + rest);
    assert s[|body| + |close|..] == tail + rest && s[..|body|] == body;
    EatPrefix(tail, rest);
    assert |body| < |s|;
  }

  lemma PeelElement(open: string, text: string, close: string, rest: string)
    requires IsBlockTag(close)
    ensures Peel(Element(open, text, close) + "\n" + rest, open, close, "\n") == Some((InlineMarkup(text), rest))
  {
    hide Peel, InlineMarkup, Sealed;
    InlineSealed(text, close);
    PeelBack(open, InlineMarkup(text), close, "\n", rest);
  }

  lemma BlockTagNonempty(g: string)
    requires IsBlockTag(g)
    ensures g != ""
  {}

  lemma NoPeel(rest: string, open: string, close: string)
    requires close != "" && |open| >= 2 && |rest| >= 2 && open[1] != rest[1]
    ensures Peel(rest, open, close, "\n") == None
  {}

  /** Neither list ends early nor late: what follows opens differently. */
  lemma {:induction false} PeelElements(open: string, texts: seq<string>, close: string, rest: string)
    requires IsBlockTag(close)
    requires |open| >= 2 && |rest| >= 2 && open[1] != rest[1]
    ensures PeelMany(Terminated(Elements(open, texts, close)) + rest, open, close) == (texts, rest)
  {
    hide Peel, Element, Unmark, InlineMarkup, IsBlockTag;
    BlockTagNonempty(close);
    if texts == [] {
      NoPeel(rest, open, close);
      assert "" + rest == rest;
    } else {
      var more := Terminated(Elements(open, texts[1..], close)) + rest;
      assert Terminated(Elements(open, texts, close)) + rest == Element(open, texts[0], close) + "\n" + more;
      PeelElement(open, texts[0], close, more);
      InlineRoundTrip(texts[0]);
      PeelElements(open, texts[1..], close, rest);
      assert texts == [texts[0]] + texts[1..];
    }
  }

  lemma CloseTags()
    ensures IsBlockTag("</p>") && IsBlockTag("</li>") && IsBlockTag("</th>") && IsBlockTag("</td>")
  {}

  /** A wrapped run of lines, flattened. */
  lemma Wrapped(a: string, mid: seq<string>, b: string, more: seq<string>, rest: string)
    ensures Terminated([a] + mid + [b] + more) + rest
         == (a + "\n") + (Terminated(mid) + ((b + "\n") + (Terminated(more) + rest)))
  {
    TerminatedConcat([a] + mid + [b], more);
    TerminatedConcat([a] + mid, [b]);
    TerminatedConcat([a], mid);
    TerminatedOne(a);
    TerminatedOne(b);
  }

  lemma EatOther(s: string, p: string)
    requires |s| >= 2 && |p| >= 2 && s[1] != p[1]
    ensures Eat(s, p) == None
  {}

  lemma {:induction false} RowsBack(rows: seq<seq<string>>, rest: string)
    requires |rest| >= 2 && rest[1] == '/'
    ensures DecodeRows(Terminated(RowTokens(rows)) + rest) == (rows, rest)
  {
    hide Eat, Elements, PeelMany, IsBlockTag;
    if rows == [] {
      assert "" + rest == rest;
      EatOther(rest, "<tr>" + "\n");
    } else {
      var more := Terminated(RowTokens(rows[1..])) + rest;
      var cells := Terminated(Elements("<td>", rows[0], "</td>"));
      Wrapped("<tr>", Elements("<td>", rows[0], "</td>"), "</tr>", RowTokens(rows[1..]), rest);
      EatPrefix("<tr>" + "\n", cells + ("</tr>" + "\n" + more));
      CloseTags();
      PeelElements("<td>", rows[0], "</td>", "</tr>" + "\n" + more);
      EatPrefix("</tr>" + "\n", more);
      RowsBack(rows[1..], rest);
      assert rows == [rows[0]] + rows[1..];
    }
  }

  lemma TerminatedNothing()
    ensures Terminated([]) == ""
  {}

  lemma ListBack(items: seq<string>, rest: string)
    ensures DecodeList(Terminated(RenderBlock(Bullets(items))) + rest) == Some((Some(Bullets(items)), rest))
  {
    hide Eat, Elements, PeelMany, IsBlockTag, Terminated;
    var mid := Elements("<li>", items, "</li>");
    assert ["<ul>"] + mid + ["</ul>"] == ["<ul>"] + mid + ["</ul>"] + [];
    Wrapped("<ul>", mid, "</ul>", [], rest);
    TerminatedNothing();
    assert "" + rest == rest;
    EatPrefix("<ul>" + "\n", Terminated(mid) + ("</ul>" + "\n" + rest));
    CloseTags();
    PeelElements("<li>", items, "</li>", "</ul>" + "\n" + rest);
    EatPrefix("</ul>" + "\n", rest);
  }

  lemma TableEndBack(rows: seq<seq<string>>, rest: string)
    ensures DecodeTableEnd(rows, Terminated(["</table>"]) + rest) == Some((Some(Table(rows)), rest))
  {
    hide Eat, Terminated;
    TerminatedOne("</table>");
    EatPrefix("</table>" + "\n", rest);
  }

  function BodyTokens(rows: seq<seq<string>>): seq<string> {
    if |rows| > 1 then ["<tbody>"] + RowTokens(rows[1..]) + ["</tbody>"] else []
  }

  lemma BodyBack(rows: seq<seq<string>>, rest: string)
    requires rows != []
    ensures DecodeBody(rows[0], Terminated(BodyTokens(rows) + ["</table>"]) + rest) == Some((Some(Table(rows)), rest))
  {
    hide Eat, DecodeRows, RowTokens, Terminated, DecodeTableEnd;
    var end := Terminated(["</table>"]) + rest;
    TerminatedOne("</table>");
    TableEndBack(rows, rest);
    assert rows == [rows[0]] + rows[1..];
    if |rows| > 1 {
      var mid := RowTokens(rows[1..]);
      Wrapped("<tbody>", mid, "</tbody>", ["</table>"], rest);
      EatPrefix("<tbody>" + "\n", Terminated(mid) + ("</tbody>" + "\n" + end));
      RowsBack(rows[1..], "</tbody>" + "\n" + end);
      EatPrefix("</tbody>" + "\n", end);
    } else {
      assert [] + ["</table>"] == ["</table>"] && rows == [rows[0]];
      EatOther(end, "<tbody>" + "\n");
    }
  }

  /** The lines of a table after its head. */
  function TableRest(rows: seq<seq<string>>): seq<string>
    requires rows != []
  {
    BodyTokens(rows) + ["</table>"]
  }

  /** The text of a table, cut where the decoder cuts it. */
  lemma TableText(rows: seq<seq<string>>, rest: string)
    requires rows != []
    ensures Terminated(TableTokens(rows)) + rest
         == "<table>" + "\n" + ("<thead><tr>" + "\n" + (Terminated(Elements("<th>", rows[0], "</th>"))
            + ("</tr></thead>" + "\n" + (Terminated(TableRest(rows)) + rest))))
  {
    hide Elements, Terminated, RowTokens;
    var mid, end := Elements("<th>", rows[0], "</th>"), TableRest(rows);
    var tail := ["<thead><tr>"] + mid + ["</tr></thead>"] + end;
    assert TableTokens(rows) == ["<table>"] + tail;
    TerminatedConcat(["<table>"], tail);
    TerminatedOne("<table>");
    Wrapped("<thead><tr>", mid, "</tr></thead>", end, rest);
  }

  /** The head of a table, read. */
  lemma HeadBack(row: seq<string>, more: string)
    ensures PeelMany(Terminated(Elements("<th>", row, "</th>")) + ("</tr></thead>" + "\n" + more), "<th>", "</th>")
         == (row, "</tr></thead>" + "\n" + more)
  {
    hide PeelMany, Elements, Terminated, IsBlockTag;
    CloseTags();
    PeelElements("<th>", row, "</th>", "</tr></thead>" + "\n" + more);
  }

  lemma RestBack(rows: seq<seq<string>>, rest: string)
    requires rows != []
    ensures DecodeBody(rows[0], Terminated(TableRest(rows)) + rest) == Some((Some(Table(rows)), rest))
  {
    hide DecodeBody, Terminated, BodyTokens;
    BodyBack(rows, rest);
  }

  lemma TableBack(rows: seq<seq<string>>, rest: string)
    requires rows != []
    ensures DecodeTable(Terminated(TableTokens(rows)) + rest) == Some((Some(Table(rows)), rest))
  {
    hide Eat, PeelMany, Elements, Terminated, DecodeBody, TableTokens, TableRest;
    var more := Terminated(TableRest(rows)) + rest;
    var c := Terminated(Elements("<th>", rows[0], "</th>")) + ("</tr></thead>" + "\n" + more);
    TableText(rows, rest);
    EatPrefix("<table>" + "\n", "<thead><tr>" + "\n" + c);
    EatPrefix("<thead><tr>" + "\n", c);
    HeadBack(rows[0], more);
    EatPrefix("</tr></thead>" + "\n", more);
    RestBack(rows, rest);
  }

  // ------------------------------------------------------------------ one block

  lemma HeadIs(open: string, y: string)
    requires IsTag(open)
    ensures TagAt(open + y, 0) == open && (open + y)[0] == '<'
  {
    TagAtHead(open, y);
  }

  lemma ParagraphBack(text: string, rest: string)
    ensures DecodeBlock(Element("<p>", text, "</p>") + "\n" + rest) == Some((Some(Paragraph(text)), rest))
  {
    hide Peel, InlineMarkup, Unmark, TagAt, DecodeList, DecodeTable, DecodeHeading, IsBlockTag;
    var s := Element("<p>", text, "</p>") + "\n" + rest;
    assert s == "<p>" + (InlineMarkup(text) + "</p>" + "\n" + rest);
    HeadIs("<p>", InlineMarkup(text) + "</p>" + "\n" + rest);
    CloseTags();
    PeelElement("<p>", text, "</p>", rest);
    InlineRoundTrip(text);
  }

  function CaptionOpen(): string { "<p class=\"figure-caption\">" }

  lemma CaptionOpensOnce()
    ensures |CaptionOpen()| == 26 && CaptionOpen()[0] == '<'
    ensures forall i :: 0 < i < 26 ==> CaptionOpen()[i] != '<'
  {}

  lemma CaptionClosesOnce()
    ensures |CaptionOpen()| == 26 && CaptionOpen()[25] == '>' && '>' !in CaptionOpen()[..25]
  {}

  lemma CaptionOpenShape()
    ensures IsTag(CaptionOpen())
  {
    hide CaptionOpen;
    CaptionOpensOnce();
    CaptionClosesOnce();
  }

  lemma CaptionPeel(text: string, rest: string)
    ensures Peel(Element(CaptionOpen(), text, "</p>") + "\n" + rest, CaptionOpen(), "</p>", "\n")
         == Some((InlineMarkup(text), rest))
    ensures Unmark(InlineMarkup(text)) == text
  {
    hide Peel, CaptionOpen, Unmark, InlineMarkup, Element, IsBlockTag;
    CloseTags();
    PeelElement(CaptionOpen(), text, "</p>", rest);
    InlineRoundTrip(text);
  }

  lemma CaptionHead(text: string, rest: string)
    ensures var s := Element(CaptionOpen(), text, "</p>") + "\n" + rest;
      s != "" && s[0] == '<' && TagAt(s, 0) == CaptionOpen()
  {
    hide CaptionOpen, InlineMarkup, TagAt, IsTag;
    var y := InlineMarkup(text) + "</p>" + "\n" + rest;
    assert Element(CaptionOpen(), text, "</p>") + "\n" + rest == CaptionOpen() + y;
    CaptionOpenShape();
    HeadIs(CaptionOpen(), y);
  }

  lemma CaptionBack(text: string, rest: string)
    ensures DecodeBlock(Element(CaptionOpen(), text, "</p>") + "\n" + rest) == Some((Some(Caption(text)), rest))
  {
    hide Peel, Element, InlineMarkup, Unmark, TagAt, DecodeList, DecodeTable, DecodeHeading;
    CaptionHead(text, rest);
    CaptionPeel(text, rest);
  }

  lemma FenceBack(code: string, rest: string)
    ensures DecodeBlock("<pre><code>" + Escape(code) + "</code></pre>" + "\n" + rest) == Some((Some(Fence(code)), rest))
  {
    hide Peel, Escape, Unescape, TagAt, DecodeList, DecodeTable, DecodeHeading, Sealed;
    var s := "<pre><code>" + Escape(code) + "</code></pre>" + "\n" + rest;
    assert s == "<pre>" + ("<code>" + Escape(code) + "</code></pre>" + "\n" + rest);
    HeadIs("<pre>", "<code>" + Escape(code) + "</code></pre>" + "\n" + rest);
    EscapeLeavesNoMarkup(code);
    SealedPlain(Escape(code), "</code>");
    PeelBack("<pre><code>", Escape(code), "</code>", "</pre>" + "\n", rest);
    assert s == "<pre><code>" + Escape(code) + "</code>" + ("</pre>" + "\n") + rest;
    UnescapeEscape(code);
  }

  lemma InnerIs(a: string, x: string, b: string)
    ensures (a + x + b)[|a|..|a + x + b| - |b|] == x
  {}

  lemma HeadShape(level: nat, id: Option<string>)
    requires level < 10 && (id.Some? ==> '<' !in id.value && '>' !in id.value)
    ensures var open := HeadOpen(level, id);
      && IsTag(open) && |open| >= 4 && open[1] == 'h' && IsDigit(open[2]) && DigitValue(open[2]) == level
      && (id == None || id == Some("") ==> |open| == 4)
      && (id.Some? && id.value != "" ==> |open| >= 10 && open[8..|open| - 2] == id.value)
    ensures IsBlockTag(HeadClose(level))
  {
    assert Decimal(level) == [Digit(level)];
    if id.Some? && id.value != "" {
      var front := ['<', 'h', Digit(level), ' ', 'i', 'd', '=', '"'];
      assert HeadOpen(level, id) == front + id.value + ['"', '>'];
      InnerIs(front, id.value, ['"', '>']);
    }
  }

  lemma HeadingBack(t: Title, id: Option<string>, rest: string)
    requires Readable(Heading(t, id))
    ensures DecodeBlock(Element(HeadOpen(t.level, id), t.text, HeadClose(t.level)) + "\n" + rest)
         == Some((Some(Normal(Heading(t, id))[0]), rest))
  {
    hide Peel, InlineMarkup, Unmark, TagAt, DecodeList, DecodeTable, HeadOpen, HeadClose, IsBlockTag, IsTag;
    var open := HeadOpen(t.level, id);
    var close := HeadClose(t.level);
    HeadShape(t.level, id);
    var s := Element(open, t.text, close) + "\n" + rest;
    assert s == open + (InlineMarkup(t.text) + close + "\n" + rest);
    HeadIs(open, InlineMarkup(t.text) + close + "\n" + rest);
    PeelElement(open, t.text, close, rest);
    InlineRoundTrip(t.text);
  }

  lemma TerminatedHead(t: string, more: seq<string>, rest: string)
    ensures Terminated([t] + more) + rest == t + ("\n" + Terminated(more) + rest)
  {
    assert ([t] + more)[1..] == more;
  }

  lemma BulletsBack(items: seq<string>, rest: string)
    ensures DecodeBlock(Terminated(RenderBlock(Bullets(items))) + rest) == Some((Some(Bullets(items)), rest))
  {
    hide TagAt, DecodeList, DecodeTable, DecodeHeading, Peel, Elements, Terminated;
    ListBack(items, rest);
    var more := Elements("<li>", items, "</li>") + ["</ul>"];
    assert RenderBlock(Bullets(items)) == ["<ul>"] + more;
    TerminatedHead("<ul>", more, rest);
    HeadIs("<ul>", "\n" + Terminated(more) + rest);
  }

  lemma TableStarts(rows: seq<seq<string>>, rest: string) returns (y: string)
    requires rows != []
    ensures Terminated(TableTokens(rows)) + rest == "<table>" + y
  {
    hide Elements, RowTokens, Terminated, BodyTokens;
    TableText(rows, rest);
    y := (Terminated(TableTokens(rows)) + rest)[7..];
  }

  lemma TableIsTable(y: string)
    ensures "<table>" + y != "" && DecodeBlock("<table>" + y) == DecodeTable("<table>" + y)
  {
    hide TagAt, DecodeList, DecodeTable, DecodeHeading, Peel;
    HeadIs("<table>", y);
  }

  lemma TableBlockBack(rows: seq<seq<string>>, rest: string)
    requires rows != []
    ensures DecodeBlock(Terminated(TableTokens(rows)) + rest) == Some((Some(Table(rows)), rest))
  {
    hide DecodeBlock, DecodeTable, TableTokens, Terminated;
    TableBack(rows, rest);
    var y := TableStarts(rows, rest);
    TableIsTable(y);
  }

  /** The lines of one block, ended, as one string. */
  function Shown(b: Block): string { Terminated(RenderBlock(b)) }

  lemma TerminatedSome(t: string, ts: seq<string>)
    ensures Terminated([t] + ts) != ""
  {}

  lemma EmptyLine(rest: string)
    ensures DecodeBlock("\n" + rest) == Some((None, rest))
  {}

  lemma TableShown(rows: seq<seq<string>>)
    ensures rows == [] ==> Join(TableTokens(rows), "\n") + "\n" == "\n"
    ensures rows != [] ==> Join(TableTokens(rows), "\n") + "\n" == Terminated(TableTokens(rows)) != ""
  {
    hide Elements, RowTokens;
    if rows != [] {
      JoinTerminated(TableTokens(rows));
    }
  }

  lemma OneBack(b: Block, rest: string)
    requires Readable(b) && b != Blank
    ensures Shown(b) != ""
    ensures DecodeBlock(Shown(b) + rest) == Some((if Normal(b) == [] then None else Some(Normal(b)[0]), rest))
  {
    hide DecodeBlock, Terminated, Element, Elements, TableTokens, Join, Escape, HeadOpen, HeadClose;
    match b
    case Fence(code) =>
      TerminatedOne("<pre><code>" + Escape(code) + "</code></pre>");
      FenceBack(code, rest);
    case Caption(text) =>
      TerminatedOne(Element("<p class=\"figure-caption\">", text, "</p>"));
      CaptionBack(text, rest);
    case Heading(t, id) =>
      TerminatedOne(Element(HeadOpen(t.level, id), t.text, HeadClose(t.level)));
      HeadingBack(t, id, rest);
    case Paragraph(text) =>
      TerminatedOne(Element("<p>", text, "</p>"));
      ParagraphBack(text, rest);
    case Bullets(items) =>
      BulletsBack(items, rest);
      TerminatedSome("<ul>", Elements("<li>", items, "</li>") + ["</ul>"]);
      assert ["<ul>"] + Elements("<li>", items, "</li>") + ["</ul>"]
          == ["<ul>"] + (Elements("<li>", items, "</li>") + ["</ul>"]);
    case Table(rows) =>
      TerminatedOne(Join(TableTokens(rows), "\n"));
      TableShown(rows);
      if rows == [] {
        EmptyLine(rest);
      } else {
        TableBlockBack(rows, rest);
      }
  }

  // ------------------------------------------------------------- the whole body

  lemma BlankShown()
    ensures Terminated(RenderBlock(Blank)) == "" && Normal(Blank) == []
  {}

  lemma OneAtMost(b: Block)
    ensures Normal(b) == [] || Normal(b) == [Normal(b)[0]]
  {}

  lemma {:induction false} AllBack(blocks: seq<Block>)
    requires forall b :: b in blocks ==> Readable(b)
    ensures Decode(Terminated(Tokens(blocks))) == Normals(blocks)
  {
    hide DecodeBlock, RenderBlock, Terminated, Normal, Readable;
    if blocks == [] {
      TerminatedNothing();
    } else {
      var b, bs := blocks[0], blocks[1..];
      var rest := Terminated(Tokens(bs));
      AllBack(bs);
      TerminatedConcat(RenderBlock(b), Tokens(bs));
      if b == Blank {
        BlankShown();
        assert "" + rest == rest && [] + Normals(bs) == Normals(bs);
      } else {
        OneBack(b, rest);
        OneAtMost(b);
      }
    }
  }

  lemma NoTokens()
    ensures Join([], "\n") == "" && Decode("\n") == Decode("") == []
  {
    EmptyLine("");
    assert "\n" + "" == "\n";
  }

  /** The finished body, read back, is the block list. */
  lemma BodyRoundTrip(blocks: seq<Block>)
    requires forall b :: b in blocks ==> Readable(b)
    ensures Decode(RenderDoc(blocks) + "\n") == Normals(blocks)
  {
    hide DecodeBlock, RenderBlock, Terminated, Normal, Readable, Join;
    AllBack(blocks);
    if Tokens(blocks) == [] {
      TerminatedNothing();
      NoTokens();
      assert "" + "\n" == "\n";
    } else {
      JoinTerminated(Tokens(blocks));
    }
  }

  lemma BodyInjective(a: seq<Block>, b: seq<Block>)
    requires forall x :: x in a ==> Readable(x)
    requires forall x :: x in b ==> Readable(x)
    requires RenderDoc(a) == RenderDoc(b)
    ensures Normals(a) == Normals(b)
  {
    BodyRoundTrip(a);
    BodyRoundTrip(b);
  }
}
