/**
 Whether a whole document nests. One stack machine over all tags, in two readings: with `inline`
 the code and bold tags count, without it they are taken for text.
 */
module Layout {
  import opened Options
  import opened Text
  import opened Html
  import opened Inline
  import opened Nesting
  import opened Tags
  import opened Blocks
  import opened Headings
  import opened Decoder
  import C = Contents
  import S = Slug

  /** What a tag opens or closes: its first word. */
  function Name(g: string): string
    requires IsTag(g)
  {
    var s := if g[1] == '/' then g[2..|g| - 1] else g[1..|g| - 1];
    s[..Until(s, ' ')]
  }

  predicate IsInlineName(n: string) { n == "code" || n == "strong" }

  /** One tag on a stack of open names. */
  function Move(g: string, st: seq<string>, inline: bool): Option<seq<string>>
    requires IsTag(g)
  {
    if !inline && IsInlineName(Name(g)) then Some(st)
    else if g[1] != '/' then Some([Name(g)] + st)
    else if st != [] && st[0] == Name(g) then Some(st[1..])
    else None
  }

  function Run(s: string, st: seq<string>, inline: bool): Option<seq<string>>
    decreases |s|
  {
    if s == "" then Some(st)
    else if s[0] != '<' then Run(s[1..], st, inline)
    else
      var g := TagAt(s, 0);
      if !IsTag(g) then None else
        match Move(g, st, inline)
        case None => None
        case Some(q) => Run(s[|g|..], q, inline)
  }

  predicate Balanced(s: string, inline: bool) { Run(s, [], inline) == Some([]) }

  /** Not inside inline markup. */
  predicate Outer(st: seq<string>) { st == [] || !IsInlineName(st[0]) }

  /** Between blocks or inside one, `x` changes nothing, or breaks the nesting for good. */
  ghost predicate Acts(x: string, inline: bool, ok: bool) {
    forall y, st :: Outer(st) ==> Run(x + y, st, inline) == if ok then Run(y, st, inline) else None
  }

  // ------------------------------------------------------------------ running in pieces

  lemma RunTag(g: string, y: string, st: seq<string>, inline: bool)
    requires IsTag(g)
    ensures Run(g + y, st, inline) == match Move(g, st, inline) case None => None case Some(q) => Run(y, q, inline)
  {
    hide Move, Name, TagAt;
    TagAtHead(g, y);
    assert (g + y)[|g|..] == y;
  }

  lemma {:induction false} RunPlain(x: string, y: string, st: seq<string>, inline: bool)
    requires '<' !in x
    ensures Run(x + y, st, inline) == Run(y, st, inline)
  {
    hide Move, IsTag, TagAt;
    if x == "" {
      assert x + y == y;
    } else {
      assert (x + y)[0] == x[0] && (x + y)[1..] == x[1..] + y;
      RunPlain(x[1..], y, st, inline);
    }
  }

  lemma ActsPlain(x: string, inline: bool)
    requires '<' !in x
    ensures Acts(x, inline, true)
  {
    hide Run;
    forall y, st ensures Run(x + y, st, inline) == Run(y, st, inline) {
      RunPlain(x, y, st, inline);
    }
  }

  lemma ActsConcat(x: string, a: bool, y: string, b: bool, inline: bool)
    requires Acts(x, inline, a) && Acts(y, inline, b)
    ensures Acts(x + y, inline, a && b)
  {
    hide Run;
    forall z, st | Outer(st)
      ensures Run((x + y) + z, st, inline) == if a && b then Run(z, st, inline) else None
    {
      Assoc(x, y, z);
      assert Run(x + (y + z), st, inline) == if a then Run(y + z, st, inline) else None;
    }
  }

  /** Two tags of one block name. */
  predicate Pair(open: string, close: string) {
    && IsTag(open) && IsTag(close) && open[1] != '/' && close[1] == '/'
    && Name(open) == Name(close) && !IsInlineName(Name(open))
  }

  lemma ActsWrap(open: string, x: string, close: string, inline: bool, ok: bool)
    requires Pair(open, close) && Acts(x, inline, ok)
    ensures Acts(open + x + close, inline, ok)
  {
    hide Run, IsTag, Name, IsInlineName;
    var n := Name(open);
    forall z, st | Outer(st)
      ensures Run((open + x + close) + z, st, inline) == if ok then Run(z, st, inline) else None
    {
      assert (open + x + close) + z == open + (x + (close + z));
      RunTag(open, x + (close + z), st, inline);
      assert Outer([n] + st) && ([n] + st)[1..] == st;
      assert Run(x + (close + z), [n] + st, inline) == if ok then Run(close + z, [n] + st, inline) else None;
      RunTag(close, z, [n] + st, inline);
    }
  }

  // ---------------------------------------------------------------------- inline markup

  function TagName(t: Tag): string { if t == Code then "code" else "strong" }

  function Names(q: seq<Tag>): (r: seq<string>)
    ensures |r| == |q| && forall i :: 0 <= i < |q| ==> r[i] == TagName(q[i])
  {
    if q == [] then [] else [TagName(q[0])] + Names(q[1..])
  }

  lemma TagTextIs(h: Head)
    requires !h.Plain?
    ensures TagText(h) == if h.Open? then ['<'] + TagName(h.tag) + ['>'] else ['<', '/'] + TagName(h.tag) + ['>']
  {
    match h
    case Open(t) => if t == Code { } else { }
    case Close(t) => if t == Code { } else { }
  }

  lemma TagNameIs(t: Tag)
    ensures ' ' !in TagName(t) && TagName(t) != "" && TagName(t)[0] != '/' && IsInlineName(TagName(t))
  {}

  lemma OpenName(open: string, n: string, more: string)
    requires IsTag(open) && open == ['<'] + (n + more) + ['>']
    requires n != "" && n[0] != '/' && ' ' !in n && (more == "" || more[0] == ' ')
    ensures Name(open) == n && open[1] != '/'
  {
    assert open[1..|open| - 1] == n + more;
    assert open[1] == n[0];
    UntilIs(n + more, ' ', |n|);
  }

  lemma CloseName(close: string, n: string)
    requires IsTag(close) && close == ['<', '/'] + n + ['>'] && ' ' !in n
    ensures Name(close) == n && close[1] == '/'
  {
    assert close[2..|close| - 1] == n;
    UntilIs(n, ' ', |n|);
  }

  lemma TagTextName(h: Head)
    requires !h.Plain?
    ensures IsTag(TagText(h)) && Name(TagText(h)) == TagName(h.tag) && IsInlineName(Name(TagText(h)))
    ensures TagText(h)[1] == '/' <==> h.Close?
  {
    hide TagText, TagName, Name, IsInlineName;
    TagShape(h);
    TagTextIs(h);
    var g, n := TagText(h), TagName(h.tag);
    TagNameIs(h.tag);
    if h.Open? {
      assert n + "" == n;
      OpenName(g, n, "");
    } else {
      CloseName(g, n);
    }
  }

  lemma InlineTaggedSuffix(s: string, n: nat)
    requires InlineTagged(s) && n <= |s|
    ensures InlineTagged(s[n..])
  {
    hide HeadOf;
    forall i | 0 <= i < |s[n..]| && s[n..][i] == '<' ensures !HeadOf(s[n..][i..]).Plain? {
      assert s[n..][i..] == s[n + i..];
    }
  }

  /** On inline markup the machine does what the machine for inline tags does. */
  lemma {:induction false} InlineRuns(s: string, y: string, q: seq<Tag>, st: seq<string>)
    requires InlineTagged(s) && Outer(st)
    ensures Run(s + y, Names(q) + st, true)
         == match Nest(s, q) case None => None case Some(r) => Run(y, Names(r) + st, true)
    decreases |s|
  {
    hide HeadOf, TagText, Run, Name, IsTag;
    if s == "" {
      assert s + y == y;
    } else {
      var h := HeadOf(s);
      assert s[0..] == s;
      if s[0] != '<' {
        HeadPlain(s);
        InlineTaggedSuffix(s, 1);
        InlineRuns(s[1..], y, q, st);
        assert s + y == [s[0]] + (s[1..] + y);
        RunPlain([s[0]], s[1..] + y, Names(q) + st, true);
      } else {
        HeadIsPrefix(s);
        TagShape(h);
        TagTextName(h);
        var g := TagText(h);
        var rest := s[|g|..];
        InlineTaggedSuffix(s, |g|);
        assert s + y == g + (rest + y);
        RunTag(g, rest + y, Names(q) + st, true);
        if h.Open? {
          InlineRuns(rest, y, [h.tag] + q, st);
          assert Names([h.tag] + q) + st == [TagName(h.tag)] + (Names(q) + st);
        } else if q != [] {
          InlineRuns(rest, y, q[1..], st);
          assert (Names(q) + st)[1..] == Names(q[1..]) + st;
        } else {
          assert Names(q) + st == st;
        }
      }
    }
  }

  lemma {:induction false} InlineSkips(s: string, y: string, st: seq<string>)
    requires InlineTagged(s)
    ensures Run(s + y, st, false) == Run(y, st, false)
    decreases |s|
  {
    hide HeadOf, TagText, Run, Name, IsTag;
    if s == "" {
      assert s + y == y;
    } else {
      assert s[0..] == s;
      var h := HeadOf(s);
      if s[0] != '<' {
        InlineTaggedSuffix(s, 1);
        InlineSkips(s[1..], y, st);
        assert s + y == [s[0]] + (s[1..] + y);
        RunPlain([s[0]], s[1..] + y, st, false);
      } else {
        HeadIsPrefix(s);
        TagShape(h);
        TagTextName(h);
        var g := TagText(h);
        InlineTaggedSuffix(s, |g|);
        assert s + y == g + (s[|g|..] + y);
        RunTag(g, s[|g|..] + y, st, false);
        InlineSkips(s[|g|..], y, st);
      }
    }
  }

  /** No bold span of the text cuts a code span. */
  predicate Whole(text: string) { BoldSpansWhole(CodePass(Escape(text))) }

  lemma ActsInline(text: string, inline: bool)
    ensures Acts(InlineMarkup(text), inline, !inline || Whole(text))
  {
    hide Run, Nest, HeadOf, BoldSpansWhole, InlineTagged, CodePass, BoldPass, Escape;
    var e, x := Escape(text), InlineMarkup(text);
    EscapeLeavesNoMarkup(text);
    CodePassNests(e);
    BoldPassTagged(CodePass(e));
    BoldPassNests(CodePass(e), []);
    forall y, st | Outer(st)
      ensures Run(x + y, st, inline) == if !inline || Whole(text) then Run(y, st, inline) else None
    {
      if inline {
        assert Names([]) + st == st;
        InlineRuns(x, y, [], st);
      } else {
        InlineSkips(x, y, st);
      }
    }
  }

  // ------------------------------------------------------------------------- the blocks

  predicate AllWhole(texts: seq<string>) { forall t :: t in texts ==> Whole(t) }

  predicate AllRowsWhole(rows: seq<seq<string>>) { forall row :: row in rows ==> AllWhole(row) }

  /** Every inline text of the block nests. */
  predicate BlockWhole(b: Block) {
    match b
    case Fence(_) => true
    case Blank => true
    case Table(rows) => AllRowsWhole(rows)
    case Caption(text) => Whole(text)
    case Heading(t, _) => Whole(t.text)
    case Bullets(items) => AllWhole(items)
    case Paragraph(text) => Whole(text)
  }

  lemma ActsLine(x: string, inline: bool, ok: bool)
    requires Acts(x, inline, ok)
    ensures Acts(x + "\n", inline, ok) && Acts("\n" + x, inline, ok)
  {
    hide Acts;
    ActsPlain("\n", inline);
    ActsConcat(x, ok, "\n", true, inline);
    ActsConcat("\n", true, x, ok, inline);
  }

  lemma ActsElement(open: string, text: string, close: string, inline: bool)
    requires Pair(open, close)
    ensures Acts(Element(open, text, close), inline, !inline || Whole(text))
  {
    hide Acts, Pair, Whole, InlineMarkup;
    ActsInline(text, inline);
    ActsWrap(open, InlineMarkup(text), close, inline, !inline || Whole(text));
  }

  lemma {:induction false} ActsElements(open: string, texts: seq<string>, close: string, inline: bool)
    requires Pair(open, close)
    ensures Acts(Terminated(Elements(open, texts, close)), inline, !inline || AllWhole(texts))
  {
    hide Acts, Pair, Whole, Element;
    if texts == [] {
      ActsPlain("", inline);
    } else {
      var one, more := Element(open, texts[0], close), Elements(open, texts[1..], close);
      ActsElement(open, texts[0], close, inline);
      ActsLine(one, inline, !inline || Whole(texts[0]));
      ActsElements(open, texts[1..], close, inline);
      ActsConcat(one + "\n", !inline || Whole(texts[0]), Terminated(more), !inline || AllWhole(texts[1..]), inline);
      assert Elements(open, texts, close) == [one] + more && ([one] + more)[1..] == more;
      assert (!inline || Whole(texts[0])) && (!inline || AllWhole(texts[1..])) <==> (!inline || AllWhole(texts)) by {
        assert texts == [texts[0]] + texts[1..];
      }
    }
  }

  /** A wrapped run of lines. */
  lemma ActsLines(open: string, mid: seq<string>, close: string, inline: bool, ok: bool)
    requires Pair(open, close) && Acts(Terminated(mid), inline, ok)
    ensures Acts(Terminated([open] + mid + [close]), inline, ok)
  {
    hide Acts, Pair, Terminated;
    ActsLine(Terminated(mid), inline, ok);
    ActsWrap(open, "\n" + Terminated(mid), close, inline, ok);
    ActsLine(open + ("\n" + Terminated(mid)) + close, inline, ok);
    TerminatedConcat([open] + mid, [close]);
    TerminatedConcat([open], mid);
    TerminatedOne(open);
    TerminatedOne(close);
    assert open + "\n" + Terminated(mid) + (close + "\n") == open + ("\n" + Terminated(mid)) + close + "\n";
  }

  lemma ActsTwoLines(a: string, b: string, mid: seq<string>, b': string, a': string, inline: bool, ok: bool)
    requires Pair(a, a') && Pair(b, b') && Acts(Terminated(mid), inline, ok)
    ensures Acts(Terminated([a + b] + mid + [b' + a']), inline, ok)
  {
    hide Acts, Pair, Terminated;
    ActsLine(Terminated(mid), inline, ok);
    ActsWrap(b, "\n" + Terminated(mid), b', inline, ok);
    ActsWrap(a, b + ("\n" + Terminated(mid)) + b', a', inline, ok);
    ActsLine(a + (b + ("\n" + Terminated(mid)) + b') + a', inline, ok);
    TerminatedConcat([a + b] + mid, [b' + a']);
    TerminatedConcat([a + b], mid);
    TerminatedOne(a + b);
    TerminatedOne(b' + a');
    assert a + b + "\n" + Terminated(mid) + (b' + a' + "\n") == a + (b + ("\n" + Terminated(mid)) + b') + a' + "\n";
  }

  lemma PairIs(open: string, close: string, n: string, more: string)
    requires IsTag(open) && IsTag(close) && open == ['<'] + (n + more) + ['>'] && close == ['<', '/'] + n + ['>']
    requires n != "" && n[0] != '/' && ' ' !in n && !IsInlineName(n) && (more == "" || more[0] == ' ')
    ensures Pair(open, close)
  {
    hide Name, IsTag;
    OpenName(open, n, more);
    CloseName(close, n);
  }

  lemma TextPairs()
    ensures Pair("<p>", "</p>") && Pair("<tr>", "</tr>")
  {
    hide Pair;
    C.SmallTags();
    PairIs("<p>", "</p>", "p", "");
    PairIs("<tr>", "</tr>", "tr", "");
  }

  lemma ListPairs()
    ensures Pair("<ul>", "</ul>") && Pair("<li>", "</li>")
  {
    hide Pair;
    C.SmallTags();
    PairIs("<ul>", "</ul>", "ul", "");
    PairIs("<li>", "</li>", "li", "");
  }

  lemma BlockPairs()
    ensures Pair("<p>", "</p>") && Pair("<ul>", "</ul>") && Pair("<li>", "</li>") && Pair("<tr>", "</tr>")
  {
    hide Pair;
    TextPairs();
    ListPairs();
  }

  lemma CellPairs()
    ensures Pair("<th>", "</th>") && Pair("<td>", "</td>")
  {
    hide Pair;
    C.SmallTags();
    PairIs("<th>", "</th>", "th", "");
    PairIs("<td>", "</td>", "td", "");
  }

  lemma TablePairs()
    ensures Pair("<table>", "</table>") && Pair("<thead>", "</thead>")
  {
    hide Pair;
    C.LargeTags();
    PairIs("<table>", "</table>", "table", "");
    PairIs("<thead>", "</thead>", "thead", "");
  }

  lemma BodyPairs()
    ensures Pair("<tbody>", "</tbody>") && Pair("<pre>", "</pre>")
  {
    hide Pair;
    C.LargerTags();
    PairIs("<tbody>", "</tbody>", "tbody", "");
    PairIs("<pre>", "</pre>", "pre", "");
  }

  lemma NothingShown()
    ensures Terminated([]) == ""
  {}

  lemma {:induction false} ActsRows(rows: seq<seq<string>>, inline: bool)
    ensures Acts(Terminated(RowTokens(rows)), inline, !inline || AllRowsWhole(rows))
  {
    hide Acts, Pair, AllWhole, Elements, Terminated;
    if rows == [] {
      NothingShown();
      ActsPlain("", inline);
    } else {
      var cells, more := Elements("<td>", rows[0], "</td>"), RowTokens(rows[1..]);
      var a, b := !inline || AllWhole(rows[0]), !inline || AllRowsWhole(rows[1..]);
      BlockPairs();
      CellPairs();
      ActsElements("<td>", rows[0], "</td>", inline);
      ActsLines("<tr>", cells, "</tr>", inline, a);
      ActsRows(rows[1..], inline);
      TerminatedConcat(["<tr>"] + cells + ["</tr>"], more);
      ActsConcat(Terminated(["<tr>"] + cells + ["</tr>"]), a, Terminated(more), b, inline);
      assert rows == [rows[0]] + rows[1..];
    }
  }

  lemma ActsTableBody(rows: seq<seq<string>>, inline: bool)
    requires rows != []
    ensures Acts(Terminated(BodyTokens(rows)), inline, !inline || AllRowsWhole(rows[1..]))
  {
    hide Acts, Pair, RowTokens, Terminated, AllWhole;
    if |rows| > 1 {
      ActsRows(rows[1..], inline);
      BodyPairs();
      ActsLines("<tbody>", RowTokens(rows[1..]), "</tbody>", inline, !inline || AllRowsWhole(rows[1..]));
    } else {
      NothingShown();
      ActsPlain("", inline);
      assert rows[1..] == [];
    }
  }

  function HeadTokens(row: seq<string>): seq<string> {
    ["<thead><tr>"] + Elements("<th>", row, "</th>") + ["</tr></thead>"]
  }

  lemma ActsTableHead(row: seq<string>, inline: bool)
    ensures Acts(Terminated(HeadTokens(row)), inline, !inline || AllWhole(row))
  {
    hide Acts, Pair, AllWhole, Elements, Terminated;
    CellPairs();
    BlockPairs();
    TablePairs();
    ActsElements("<th>", row, "</th>", inline);
    assert "<thead>" + "<tr>" == "<thead><tr>" && "</tr>" + "</thead>" == "</tr></thead>";
    ActsTwoLines("<thead>", "<tr>", Elements("<th>", row, "</th>"), "</tr>", "</thead>", inline,
                 !inline || AllWhole(row));
  }

  lemma TableTokensIs(rows: seq<seq<string>>)
    requires rows != []
    ensures TableTokens(rows) == ["<table>"] + (HeadTokens(rows[0]) + BodyTokens(rows)) + ["</table>"]
  {
    hide Elements, RowTokens;
  }

  lemma ActsTable(rows: seq<seq<string>>, inline: bool)
    requires rows != []
    ensures Acts(Terminated(TableTokens(rows)), inline, !inline || AllRowsWhole(rows))
  {
    hide Acts, Pair, AllWhole, HeadTokens, BodyTokens, TableTokens, Terminated;
    var head, body := HeadTokens(rows[0]), BodyTokens(rows);
    var a, b := !inline || AllWhole(rows[0]), !inline || AllRowsWhole(rows[1..]);
    ActsTableHead(rows[0], inline);
    ActsTableBody(rows, inline);
    TerminatedConcat(head, body);
    ActsConcat(Terminated(head), a, Terminated(body), b, inline);
    TablePairs();
    ActsLines("<table>", head + body, "</table>", inline, a && b);
    TableTokensIs(rows);
    assert rows == [rows[0]] + rows[1..];
  }

  lemma HeadName(level: nat)
    requires level < 10
    ensures var n := ['h'] + Decimal(level); ' ' !in n && !IsInlineName(n)
  {
    assert Decimal(level) == [Digit(level)];
    assert (['h'] + Decimal(level))[0] == 'h' && "code"[0] == 'c' && "strong"[0] == 's';
  }

  lemma HeadPair(level: nat, id: Option<string>)
    requires 1 <= level < 10 && (id.Some? ==> '<' !in id.value && '>' !in id.value)
    ensures Pair(HeadOpen(level, id), HeadClose(level))
  {
    hide IsTag, Pair;
    C.HeadTags(level, id);
    var n := ['h'] + Decimal(level);
    assert Decimal(level) == [Digit(level)];
    var more := if id.Some? && id.value != "" then " id=\"" + id.value + "\"" else "";
    assert HeadOpen(level, id) == ['<'] + (n + more) + ['>'];
    assert HeadClose(level) == ['<', '/'] + n + ['>'];
    HeadName(level);
    PairIs(HeadOpen(level, id), HeadClose(level), n, more);
  }

  lemma CaptionText()
    ensures CaptionOpen() == ['<'] + ("p" + " class=\"figure-caption\"") + ['>']
  {}

  lemma CaptionName()
    ensures "</p>" == ['<', '/'] + "p" + ['>'] && ' ' !in "p" && "p"[0] == 'p' && !IsInlineName("p")
  {}

  lemma CaptionPair()
    ensures Pair(CaptionOpen(), "</p>")
  {
    hide IsTag, Pair;
    C.SmallTags();
    CaptionOpenShape();
    hide CaptionOpen;
    CaptionText();
    CaptionName();
    PairIs(CaptionOpen(), "</p>", "p", " class=\"figure-caption\"");
  }

  lemma CodeTags()
    ensures "<pre>" + TagText(Open(Code)) == "<pre><code>" && TagText(Close(Code)) + "</pre>" == "</code></pre>"
  {}

  /** Text between code tags. */
  lemma ActsCode(e: string, inline: bool)
    requires '<' !in e
    ensures Acts(TagText(Open(Code)) + e + TagText(Close(Code)), inline, true)
  {
    hide Run, TagText, IsTag, Name;
    var open, close := TagText(Open(Code)), TagText(Close(Code));
    TagTextName(Open(Code));
    TagTextName(Close(Code));
    forall y, st ensures Run((open + e + close) + y, st, inline) == Run(y, st, inline) {
      assert (open + e + close) + y == open + (e + (close + y));
      RunTag(open, e + (close + y), st, inline);
      RunPlain(e, close + y, st, inline);
      RunPlain(e, close + y, ["code"] + st, inline);
      assert (["code"] + st)[1..] == st;
      RunTag(close, y, st, inline);
      RunTag(close, y, ["code"] + st, inline);
    }
  }

  lemma ActsFence(code: string, inline: bool)
    ensures Acts("<pre><code>" + Escape(code) + "</code></pre>", inline, true)
  {
    hide Acts, Pair, Escape, TagText;
    var e := Escape(code);
    var inner := TagText(Open(Code)) + e + TagText(Close(Code));
    EscapeLeavesNoMarkup(code);
    ActsCode(e, inline);
    BodyPairs();
    ActsWrap("<pre>", inner, "</pre>", inline, true);
    CodeTags();
    assert "<pre>" + inner + "</pre>"
        == ("<pre>" + TagText(Open(Code))) + e + (TagText(Close(Code)) + "</pre>");
  }

  lemma ActsOne(token: string, inline: bool, ok: bool)
    requires Acts(token, inline, ok)
    ensures Acts(Terminated([token]), inline, ok)
  {
    hide Acts, Terminated;
    TerminatedOne(token);
    ActsLine(token, inline, ok);
  }

  lemma ActsBlock(b: Block, inline: bool)
    requires Readable(b)
    ensures Acts(Shown(b), inline, !inline || BlockWhole(b))
  {
    hide Acts, Pair, Whole, Element, Elements, TableTokens, Terminated, HeadOpen, HeadClose, Escape, Join;
    BlockPairs();
    match b
    case Blank =>
      NothingShown();
      ActsPlain("", inline);
    case Fence(code) =>
      ActsFence(code, inline);
      ActsOne("<pre><code>" + Escape(code) + "</code></pre>", inline, true);
    case Caption(text) =>
      CaptionPair();
      ActsElement(CaptionOpen(), text, "</p>", inline);
      ActsOne(Element(CaptionOpen(), text, "</p>"), inline, !inline || Whole(text));
    case Heading(t, id) =>
      HeadPair(t.level, id);
      ActsElement(HeadOpen(t.level, id), t.text, HeadClose(t.level), inline);
      ActsOne(Element(HeadOpen(t.level, id), t.text, HeadClose(t.level)), inline, !inline || Whole(t.text));
    case Paragraph(text) =>
      ActsElement("<p>", text, "</p>", inline);
      ActsOne(Element("<p>", text, "</p>"), inline, !inline || Whole(text));
    case Bullets(items) =>
      ActsElements("<li>", items, "</li>", inline);
      ActsLines("<ul>", Elements("<li>", items, "</li>"), "</ul>", inline, !inline || AllWhole(items));
    case Table(rows) =>
      TerminatedOne(Join(TableTokens(rows), "\n"));
      TableShown(rows);
      if rows == [] {
        ActsPlain("\n", inline);
      } else {
        ActsTable(rows, inline);
      }
  }

  predicate AllBlocksWhole(blocks: seq<Block>) { forall b :: b in blocks ==> BlockWhole(b) }

  lemma {:induction false} ActsBlocks(blocks: seq<Block>, inline: bool)
    requires forall b :: b in blocks ==> Readable(b)
    ensures Acts(Terminated(Tokens(blocks)), inline, !inline || AllBlocksWhole(blocks))
  {
    hide Acts, RenderBlock, Readable, BlockWhole, Terminated;
    if blocks == [] {
      NothingShown();
      ActsPlain("", inline);
    } else {
      var b, more := blocks[0], Tokens(blocks[1..]);
      ActsBlock(b, inline);
      ActsBlocks(blocks[1..], inline);
      TerminatedConcat(RenderBlock(b), more);
      ActsConcat(Shown(b), !inline || BlockWhole(b), Terminated(more), !inline || AllBlocksWhole(blocks[1..]), inline);
      assert blocks == [b] + blocks[1..];
    }
  }

  lemma BreakNoTag(s: string)
    requires s != "" && !IsTag(TagAt(s, 0))
    ensures !IsTag(TagAt(s + "\n", 0))
  {
    var t := s + "\n";
    assert s[0..] == s && t[0..] == t;
    var n := Until(s, '>');
    if n < |s| {
      assert t[..n] == s[..n];
      UntilIs(t, '>', n);
      assert t[..n + 1] == s[..n + 1];
    } else {
      assert forall c :: c in t ==> c in s || c == '\n';
      assert '>' !in t;
      UntilIs(t, '>', |t|);
    }
  }

  /** A line break at the end does not matter. */
  lemma {:induction false} RunBreak(s: string, st: seq<string>, inline: bool)
    ensures Run(s + "\n", st, inline) == Run(s, st, inline)
    decreases |s|
  {
    hide Move, Name;
    if s == "" {
      RunPlain("\n", "", st, inline);
      assert "\n" + "" == "\n" && "" + "\n" == "\n";
    } else if s[0] != '<' {
      assert (s + "\n")[1..] == s[1..] + "\n";
      RunBreak(s[1..], st, inline);
    } else {
      var g := TagAt(s, 0);
      if IsTag(g) {
        TagAtExtend(s, "\n", 0);
        assert (s + "\n")[|g|..] == s[|g|..] + "\n";
        if Move(g, st, inline).Some? {
          RunBreak(s[|g|..], Move(g, st, inline).value, inline);
        }
      } else {
        BreakNoTag(s);
      }
    }
  }

  lemma RunNothing(inline: bool)
    ensures Run("", [], inline) == Some([])
  {}

  lemma ActsBalanced(x: string, inline: bool, ok: bool)
    requires Acts(x + "\n", inline, ok)
    ensures Balanced(x, inline) <==> ok
  {
    hide Run;
    assert (x + "\n") + "" == x + "\n" && Outer([]);
    RunNothing(inline);
    assert Run((x + "\n") + "", [], inline) == if ok then Run("", [], inline) else None;
    RunBreak(x, [], inline);
  }

  /** Every rendered document nests when inline markup is taken for text, and nests in full exactly
      when each of its inline texts does. */
  lemma DocumentNestsIff(blocks: seq<Block>)
    requires forall b :: b in blocks ==> Readable(b)
    ensures Balanced(RenderDoc(blocks), false)
    ensures Balanced(RenderDoc(blocks), true) <==> AllBlocksWhole(blocks)
  {
    hide Acts, Tokens, Readable, Balanced, BlockWhole, Join, Terminated;
    ActsBlocks(blocks, false);
    ActsBlocks(blocks, true);
    if Tokens(blocks) == [] {
      NothingShown();
      NoTokens();
      ActsLine("", false, true);
      ActsLine("", true, AllBlocksWhole(blocks));
      assert "" + "\n" == "\n";
    } else {
      JoinTerminated(Tokens(blocks));
    }
    ActsBalanced(RenderDoc(blocks), false, true);
    ActsBalanced(RenderDoc(blocks), true, AllBlocksWhole(blocks));
  }

  lemma StarFree(t: string)
    requires NoStarInCode(Escape(t))
    ensures Whole(t)
  {
    hide NoStarInCode, Escape, BoldSpansWhole, CodePass;
    EscapeLeavesNoMarkup(t);
    NoStarSuffices(Escape(t));
  }

  function Flat(rows: seq<seq<string>>): seq<string> {
    if rows == [] then [] else rows[0] + Flat(rows[1..])
  }

  /** The inline texts of a block. */
  function TextsOf(b: Block): seq<string> {
    match b
    case Fence(_) => []
    case Blank => []
    case Table(rows) => Flat(rows)
    case Caption(text) => [text]
    case Heading(t, _) => [t.text]
    case Bullets(items) => items
    case Paragraph(text) => [text]
  }

  lemma {:induction false} FlatHas(rows: seq<seq<string>>, row: seq<string>, t: string)
    requires row in rows && t in row
    ensures t in Flat(rows)
  {
    if t !in rows[0] {
      FlatHas(rows[1..], row, t);
    }
  }

  lemma TextsWhole(b: Block)
    requires forall t :: t in TextsOf(b) ==> Whole(t)
    ensures BlockWhole(b)
  {
    hide Whole;
    if b.Table? {
      forall row, t | row in b.rows && t in row ensures Whole(t) {
        FlatHas(b.rows, row, t);
      }
    }
  }

  /** So it does when no code span holds a star. */
  lemma DocumentNests(blocks: seq<Block>)
    requires forall b :: b in blocks ==> Readable(b)
    requires forall b, t :: b in blocks && t in TextsOf(b) ==> NoStarInCode(Escape(t))
    ensures Balanced(RenderDoc(blocks), true)
  {
    hide Balanced, RenderDoc, NoStarInCode, Escape, Whole, Readable;
    forall b | b in blocks ensures BlockWhole(b) {
      forall t | t in TextsOf(b) ensures Whole(t) {
        StarFree(t);
      }
      TextsWhole(b);
    }
    DocumentNestsIff(blocks);
  }

  // ------------------------------------------------------------------- with the contents list

  predicate TocWhole(toc: seq<Entry>) { forall e :: e in toc ==> Whole(e.title.text) }

  predicate Bare(s: string) { '<' !in s && '>' !in s }

  predicate PlainSlugs(toc: seq<Entry>) { forall e :: e in toc ==> Bare(e.slug) }

  lemma AttributePair(n: string, more: string)
    requires Bare(n) && Bare(more) && n != "" && n[0] != '/' && ' ' !in n && !IsInlineName(n)
    requires more == "" || more[0] == ' '
    ensures Pair(['<'] + (n + more) + ['>'], ['<', '/'] + n + ['>'])
  {
    hide Pair, IsInlineName;
    var open, close := ['<'] + (n + more) + ['>'], ['<', '/'] + n + ['>'];
    assert open[1..] == n + more + ['>'] && open[..|open| - 1] == ['<'] + (n + more);
    assert close[1..] == ['/'] + n + ['>'] && close[..|close| - 1] == ['<', '/'] + n;
    PairIs(open, close, n, more);
  }

  lemma TocNames()
    ensures forall n :: n in {"a", "li", "ul", "section"} ==>
      Bare(n) && n != "" && n[0] != '/' && ' ' !in n && !IsInlineName(n)
  {
    assert "code"[0] == 'c' && "strong"[1] == 't';
    assert "a"[0] == 'a' && "li"[0] == 'l' && "ul"[0] == 'u' && "section"[1] == 'e';
  }

  function TocOpen(e: Entry): string {
    "<li class=\"" + (if e.title.level == 3 then "toc-h3" else "toc-h2") + "\">"
  }

  function LinkOpen(slug: string): string { "<a href=\"#" + slug + "\">" }

  lemma LinkPair(slug: string)
    requires Bare(slug)
    ensures Pair(LinkOpen(slug), "</a>")
  {
    hide Pair;
    TocNames();
    var more := " href=\"#" + slug + "\"";
    assert LinkOpen(slug) == ['<'] + ("a" + more) + ['>'] && "</a>" == ['<', '/'] + "a" + ['>'];
    AttributePair("a", more);
  }

  lemma TocPair(e: Entry)
    ensures Pair(TocOpen(e), "</li>")
  {
    hide Pair;
    TocNames();
    var more := " class=\"" + (if e.title.level == 3 then "toc-h3" else "toc-h2") + "\"";
    assert TocOpen(e) == ['<'] + ("li" + more) + ['>'] && "</li>" == ['<', '/'] + "li" + ['>'];
    AttributePair("li", more);
  }

  lemma ListPair()
    ensures Pair("<ul class=\"toc-list\">", "</ul>")
  {
    hide Pair;
    TocNames();
    var more := " class=\"toc-list\"";
    assert "<ul class=\"toc-list\">" == ['<'] + ("ul" + more) + ['>'] && "</ul>" == ['<', '/'] + "ul" + ['>'];
    AttributePair("ul", more);
  }

  lemma SectionOpen()
    ensures "<section class=\"toc page-break\">" == ['<'] + ("section" + " class=\"toc page-break\"") + ['>']
  {}

  lemma SectionClose()
    ensures "</section>" == ['<', '/'] + "section" + ['>']
  {}

  lemma BareClass()
    ensures Bare(" class=\"toc page-break\"")
  {}

  lemma SectionPair()
    ensures Pair("<section class=\"toc page-break\">", "</section>")
  {
    hide Pair, Bare, IsInlineName;
    TocNames();
    SectionOpen();
    SectionClose();
    assert Bare(" class=\"toc page-break\"") by { BareClass(); }
    AttributePair("section", " class=\"toc page-break\"");
  }

  lemma TocLineIs(e: Entry)
    ensures C.TocLine(e) == TocOpen(e) + (LinkOpen(e.slug) + InlineMarkup(e.title.text) + "</a>") + "</li>"
  {
    hide InlineMarkup;
  }

  lemma ActsTocLine(e: Entry, inline: bool)
    requires Bare(e.slug)
    ensures Acts(C.TocLine(e), inline, !inline || Whole(e.title.text))
  {
    hide Acts, Pair, Whole, InlineMarkup;
    var ok, link := !inline || Whole(e.title.text), LinkOpen(e.slug) + InlineMarkup(e.title.text) + "</a>";
    ActsInline(e.title.text, inline);
    LinkPair(e.slug);
    ActsWrap(LinkOpen(e.slug), InlineMarkup(e.title.text), "</a>", inline, ok);
    TocPair(e);
    ActsWrap(TocOpen(e), link, "</li>", inline, ok);
    TocLineIs(e);
  }

  lemma {:induction false} ActsTocLines(toc: seq<Entry>, inline: bool)
    requires PlainSlugs(toc)
    ensures Acts(Terminated(C.TocLines(toc)), inline, !inline || TocWhole(toc))
  {
    hide Acts, Whole, C.TocLine, Terminated;
    if toc == [] {
      NothingShown();
      ActsPlain("", inline);
    } else {
      var last, before := toc[|toc| - 1], toc[..|toc| - 1];
      ActsTocLines(before, inline);
      ActsTocLine(last, inline);
      ActsOne(C.TocLine(last), inline, !inline || Whole(last.title.text));
      TerminatedConcat(C.TocLines(before), [C.TocLine(last)]);
      ActsConcat(Terminated(C.TocLines(before)), !inline || TocWhole(before), Terminated([C.TocLine(last)]),
                 !inline || Whole(last.title.text), inline);
      assert toc == before + [last];
    }
  }

  lemma ActsTitle(inline: bool)
    ensures Acts("<h2>\U{130}\U{E7}indekiler</h2>", inline, true)
  {
    hide Acts, Pair;
    HeadPair(2, None);
    var title := "\U{130}\U{E7}indekiler";
    ActsPlain(title, inline);
    ActsWrap(HeadOpen(2, None), title, HeadClose(2), inline, true);
    assert HeadOpen(2, None) == "<h2>" && HeadClose(2) == "</h2>";
    assert "<h2>" + title + "</h2>" == "<h2>\U{130}\U{E7}indekiler</h2>";
  }

  lemma ActsToc(toc: seq<Entry>, inline: bool)
    requires PlainSlugs(toc)
    ensures Acts(C.TocHtml(toc) + "\n", inline, !inline || TocWhole(toc))
  {
    hide Acts, Pair, PlainSlugs, TocWhole, C.TocLines, Terminated, Join;
    var ok := !inline || TocWhole(toc);
    var section, title := "<section class=\"toc page-break\">", "<h2>\U{130}\U{E7}indekiler</h2>";
    var list := ["<ul class=\"toc-list\">"] + C.TocLines(toc) + ["</ul>"];
    ActsTocLines(toc, inline);
    ListPair();
    ActsLines("<ul class=\"toc-list\">", C.TocLines(toc), "</ul>", inline, ok);
    ActsTitle(inline);
    ActsOne(title, inline, true);
    TerminatedConcat([title], list);
    ActsConcat(Terminated([title]), true, Terminated(list), ok, inline);
    SectionPair();
    ActsLines(section, [title] + list, "</section>", inline, ok);
    var tokens := [section] + ([title] + list) + ["</section>"];
    assert [section, title, "<ul class=\"toc-list\">"] + C.TocLines(toc) + ["</ul>", "</section>"] == tokens;
    JoinTerminated(tokens);
  }

  /** The body with the contents list after block `p`. */
  lemma ActsReport(blocks: seq<Block>, p: nat, toc: seq<Entry>, inline: bool)
    requires p < |blocks| && PlainSlugs(toc) && forall b :: b in blocks ==> Readable(b)
    ensures Balanced(Join(Tokens(blocks[..p + 1]) + [C.TocHtml(toc)] + Tokens(blocks[p + 1..]), "\n"), inline)
      <==> (inline ==> AllBlocksWhole(blocks) && TocWhole(toc))
  {
    hide Acts, PlainSlugs, TocWhole, C.TocHtml, Terminated, Join, Tokens, Readable, BlockWhole, Balanced;
    var a, b, html := Tokens(blocks[..p + 1]), Tokens(blocks[p + 1..]), C.TocHtml(toc);
    var okA, okB := !inline || AllBlocksWhole(blocks[..p + 1]), !inline || AllBlocksWhole(blocks[p + 1..]);
    var okT := !inline || TocWhole(toc);
    ActsBlocks(blocks[..p + 1], inline);
    ActsToc(toc, inline);
    ActsBlocks(blocks[p + 1..], inline);
    TerminatedOne(html);
    TerminatedConcat(a, [html]);
    TerminatedConcat(a + [html], b);
    ActsConcat(Terminated(a), okA, html + "\n", okT, inline);
    ActsConcat(Terminated(a) + (html + "\n"), okA && okT, Terminated(b), okB, inline);
    JoinTerminated(a + [html] + b);
    ActsBalanced(Join(a + [html] + b, "\n"), inline, okA && okT && okB);
    assert blocks == blocks[..p + 1] + blocks[p + 1..];
  }

  lemma {:induction false} FirstOf(blocks: seq<Block>) returns (p: nat)
    requires exists b :: b in blocks && C.IsH1(b)
    ensures C.FirstH1(blocks, p)
  {
    hide C.IsH1;
    p := 0;
    if !C.IsH1(blocks[0]) {
      var q := FirstOf(blocks[1..]);
      p := q + 1;
      assert forall i :: 0 < i < p ==> blocks[i] == blocks[1..][i - 1];
    }
  }

  lemma TocPlain(u: Unicode, lines: seq<string>)
    ensures PlainSlugs(C.Toc(u, lines))
  {
    hide Collected, AllSlugs, TocEntries, S.IsSlug;
    AllSlugsDistinct(u, lines);
    forall e | e in C.Toc(u, lines) ensures Bare(e.slug) {
      var k := C.EntryOf(Collected(lines), AllSlugs(u, lines), e);
      C.SlugIsPlain(AllSlugs(u, lines)[k]);
    }
  }

  /** The body of the report, contents list and all. */
  lemma ReportNestsIff(u: Unicode, lines: seq<string>)
    ensures var blocks, toc := Report(u, lines), C.Toc(u, lines);
      var body := C.Insert(RenderDoc(blocks), C.TocHtml(toc));
      && Balanced(body, false)
      && (Balanced(body, true) <==>
            AllBlocksWhole(blocks) && ((exists b :: b in blocks && C.IsH1(b)) ==> TocWhole(toc)))
  {
    hide Report, C.Insert, RenderDoc, Tokens, Join, C.IsH1, Readable, Balanced, C.TocHtml, BlockWhole, C.Toc, TocWhole,
      PlainSlugs;
    var blocks, toc := Report(u, lines), C.Toc(u, lines);
    forall b | b in blocks ensures Readable(b) {
      var p :| 0 <= p < |blocks| && blocks[p] == b;
      C.ReportReadable(u, lines, p);
    }
    C.Inserted(u, lines, C.TocHtml(toc));
    if exists b :: b in blocks && C.IsH1(b) {
      var p := FirstOf(blocks);
      TocPlain(u, lines);
      ActsReport(blocks, p, toc, false);
      ActsReport(blocks, p, toc, true);
    } else {
      DocumentNestsIff(blocks);
    }
  }
}
