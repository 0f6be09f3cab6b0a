/** The blocks of a document and the HTML each of them becomes. */
module Blocks {
  import opened Options
  import opened Text
  import opened Html
  import opened Inline
  import opened Segments

  datatype Block =
    | Fence(code: string)
    | Blank
    | Table(rows: seq<seq<string>>)
    | Caption(text: string)
    | Heading(title: Title, id: Option<string>)
    | Bullets(items: seq<string>)
    | Paragraph(text: string)

  // ------------------------------------------------------------- from lines to blocks

  function StripAll(lines: seq<string>): (r: seq<string>)
    ensures |r| == |lines|
  {
    if lines == [] then [] else [Strip(lines[0])] + StripAll(lines[1..])
  }

  function Cells(line: string): (cells: seq<string>)
    ensures cells != []
  {
    StripAll(Split(Trim(Strip(line), c => c == '|'), '|'))
  }

  /** `:?-{3,}:?` as a full match. */
  predicate IsRule(cell: string) {
    var a := if cell != "" && cell[0] == ':' then cell[1..] else cell;
    var b := if a != "" && a[|a| - 1] == ':' then a[..|a| - 1] else a;
    |b| >= 3 && forall c :: c in b ==> c == '-'
  }

  predicate IsRuleRow(cells: seq<string>) { forall c :: c in cells ==> IsRule(c) }

  /** The rows of a table: its lines without the rules. */
  function Rows(lines: seq<string>): seq<seq<string>> {
    if lines == [] then [] else
      (if IsRuleRow(Cells(lines[0])) then [] else [Cells(lines[0])]) + Rows(lines[1..])
  }

  function ItemText(u: Unicode, line: string): string {
    match ItemOf(u, Strip(line)) case Some(t) => t case None => ""
  }

  function Items(u: Unicode, lines: seq<string>): (r: seq<string>)
    ensures |r| == |lines|
  {
    if lines == [] then [] else [ItemText(u, lines[0])] + Items(u, lines[1..])
  }

  function TitleAt(line: string): Title {
    match HeadingOf(Strip(line), 4) case Some(t) => t case None => Title(0, "")
  }

  /** The dictionary key of a heading. */
  function Key(t: Title, index: nat): string {
    Decimal(t.level) + ":" + t.text + ":" + Decimal(index)
  }

  function Lookup(ids: map<string, string>, key: string): Option<string> {
    if key in ids then Some(ids[key]) else None
  }

  /** The block of a span; `k` is the number of headings before it. */
  function BlockOf(u: Unicode, lines: seq<string>, s: Span, ids: map<string, string>, k: nat): Block
    requires s.lo < s.hi <= |lines|
  {
    match s.kind
    case FenceK =>
      var close := if s.hi - 1 > s.lo && IsFenceLine(lines[s.hi - 1]) then s.hi - 1 else s.hi;
      Fence(Join(lines[s.lo + 1..close], "\n"))
    case BlankK => Blank
    case TableK => Table(Rows(lines[s.lo..s.hi]))
    case CaptionK => Caption(Strip(lines[s.lo]))
    case HeadingK =>
      var t := TitleAt(lines[s.lo]);
      Heading(t, Lookup(ids, Key(t, k)))
    case ItemK => Bullets(Items(u, lines[s.lo..s.hi]))
    case PlainK => Paragraph(Strip(Join(StripAll(lines[s.lo..s.hi]), " ")))
  }

  predicate InRange(lines: seq<string>, spans: seq<Span>) {
    forall s :: s in spans ==> s.lo < s.hi <= |lines|
  }

  function BlocksOf(u: Unicode, lines: seq<string>, spans: seq<Span>, ids: map<string, string>, k: nat): (r: seq<Block>)
    requires InRange(lines, spans)
    ensures |r| == |spans|
  {
    if spans == [] then [] else
      [BlockOf(u, lines, spans[0], ids, k)]
      + BlocksOf(u, lines, spans[1..], ids, if spans[0].kind == HeadingK then k + 1 else k)
  }

  lemma {:induction false} SegmentInRange(u: Unicode, lines: seq<string>, i: nat)
    requires i <= |lines|
    ensures InRange(lines, Segment(u, lines, i))
    decreases |lines| - i
  {
    hide KindAt, SpanAt;
    if i < |lines| {
      SegmentInRange(u, lines, SpanAt(u, lines, i).hi);
    }
  }

  /** The block list of a document. */
  function Document(u: Unicode, lines: seq<string>, ids: map<string, string>): seq<Block> {
    SegmentInRange(u, lines, 0);
    BlocksOf(u, lines, Segment(u, lines, 0), ids, 0)
  }

  // -------------------------------------------------------------- from blocks to HTML

  function Element(open: string, text: string, close: string): string {
    open + InlineMarkup(text) + close
  }

  function Elements(open: string, texts: seq<string>, close: string): seq<string> {
    if texts == [] then [] else [Element(open, texts[0], close)] + Elements(open, texts[1..], close)
  }

  function RowTokens(rows: seq<seq<string>>): seq<string> {
    if rows == [] then [] else
      ["<tr>"] + Elements("<td>", rows[0], "</td>") + ["</tr>"] + RowTokens(rows[1..])
  }

  function TableTokens(rows: seq<seq<string>>): seq<string> {
    if rows == [] then [] else
      ["<table>"] + ["<thead><tr>"] + Elements("<th>", rows[0], "</th>") + ["</tr></thead>"]
      + (if |rows| > 1 then ["<tbody>"] + RowTokens(rows[1..]) + ["</tbody>"] else [])
      + ["</table>"]
  }

  function HeadOpen(level: nat, id: Option<string>): string {
    "<h" + Decimal(level) + (if id.Some? && id.value != "" then " id=\"" + id.value + "\"" else "") + ">"
  }

  function HeadClose(level: nat): string { "</h" + Decimal(level) + ">" }

  function RenderBlock(b: Block): seq<string> {
    match b
    case Fence(code) => ["<pre><code>" + Escape(code) + "</code></pre>"]
    case Blank => []
    case Table(rows) => [Join(TableTokens(rows), "\n")]
    case Caption(text) => [Element("<p class=\"figure-caption\">", text, "</p>")]
    case Heading(t, id) => [Element(HeadOpen(t.level, id), t.text, HeadClose(t.level))]
    case Bullets(items) => ["<ul>"] + Elements("<li>", items, "</li>") + ["</ul>"]
    case Paragraph(text) => [Element("<p>", text, "</p>")]
  }

  function Tokens(blocks: seq<Block>): seq<string> {
    if blocks == [] then [] else RenderBlock(blocks[0]) + Tokens(blocks[1..])
  }

  function RenderDoc(blocks: seq<Block>): string { Join(Tokens(blocks), "\n") }
}
