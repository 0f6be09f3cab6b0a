/**
 Heading anchors. `collect_toc` and `render_markdown` walk the text separately and meet only in a
 dictionary keyed `level:title:index`; the first sees every line, fenced or not, and levels 1 to
 3, the second skips fences and counts level 4 too. This module says what comes of that.
 */
module Headings {
  import opened Options
  import opened Text
  import opened Segments
  import opened Blocks
  import opened Slug

  // ------------------------------------------------------------------ collect_toc

  /** The headings `collect_toc` sees in `lines`, in order. */
  function Collected(lines: seq<string>): seq<Title> {
    if lines == [] then [] else
      var n := |lines| - 1;
      Collected(lines[..n]) + (match HeadingOf(Strip(lines[n]), 3) case Some(t) => [t] case None => [])
  }

  function Texts(hs: seq<Title>): (r: seq<string>)
    ensures |r| == |hs| && forall k :: 0 <= k < |hs| ==> r[k] == hs[k].text
  {
    if hs == [] then [] else Texts(hs[..|hs| - 1]) + [hs[|hs| - 1].text]
  }

  function SlugsOf(u: Unicode, hs: seq<Title>): (r: seq<string>)
    ensures |r| == |hs|
  {
    Slugs(u, Texts(hs))
  }

  /** The dictionary from keys to slugs. */
  function IdMap(hs: seq<Title>, slugs: seq<string>): map<string, string>
    requires |hs| == |slugs|
  {
    if hs == [] then map[] else
      var n := |hs| - 1;
      IdMap(hs[..n], slugs[..n])[Key(hs[n], n) := slugs[n]]
  }

  datatype Entry = Entry(title: Title, slug: string)

  predicate InToc(t: Title) { t.level == 2 || t.level == 3 }

  /** The lines of the contents list: the headings of level 2 and 3 with their slugs. */
  function TocEntries(hs: seq<Title>, slugs: seq<string>): seq<Entry>
    requires |hs| == |slugs|
  {
    if hs == [] then [] else
      var n := |hs| - 1;
      TocEntries(hs[..n], slugs[..n]) + if InToc(hs[n]) then [Entry(hs[n], slugs[n])] else []
  }

  lemma SlugsSnoc(u: Unicode, hs: seq<Title>, t: Title)
    ensures SlugsOf(u, hs + [t]) == SlugsOf(u, hs) + [SlugFor(SlugBase(u.fold(t.text)), Members(SlugsOf(u, hs)))]
  {
    hide SlugFor, SlugBase, Members;
    assert (hs + [t])[..|hs|] == hs;
    var titles := Texts(hs + [t]);
    assert titles[..|hs|] == Texts(hs);
  }

  lemma MapsSnoc(hs: seq<Title>, slugs: seq<string>, t: Title, slug: string)
    requires |hs| == |slugs|
    ensures IdMap(hs + [t], slugs + [slug]) == IdMap(hs, slugs)[Key(t, |hs|) := slug]
    ensures TocEntries(hs + [t], slugs + [slug]) == TocEntries(hs, slugs) + if InToc(t) then [Entry(t, slug)] else []
  {
    hide Key;
    assert (hs + [t])[..|hs|] == hs && (slugs + [slug])[..|hs|] == slugs;
  }

  lemma CollectedStep(lines: seq<string>, i: nat)
    requires i < |lines|
    ensures Collected(lines[..i + 1]) == Collected(lines[..i])
      + (match HeadingOf(Strip(lines[i]), 3) case Some(t) => [t] case None => [])
  {
    hide HeadingOf, Strip;
    assert lines[..i + 1][..i] == lines[..i];
  }

  lemma MembersSnoc(s: seq<string>, x: string)
    ensures Members(s + [x]) == Members(s) + {x}
  {}

  lemma Empty(u: Unicode)
    ensures SlugsOf(u, []) == [] && Members([]) == {} && Collected([]) == []
    ensures IdMap([], []) == map[] && TocEntries([], []) == []
  {}
  // ----------------------------------------------------------- the dictionary keys

  method CollectToc(u: Unicode, text: string) returns (toc: seq<Entry>, ids: map<string, string>)
    ensures var hs := Collected(SplitLines(text));
      toc == TocEntries(hs, SlugsOf(u, hs)) && ids == IdMap(hs, SlugsOf(u, hs))
  {
    hide *;
    var lines := SplitLines(text);
    var used := new Registry();
    toc, ids := [], map[];
    var headingIndex := 0;
    ghost var hs: seq<Title> := [];
    Empty(u);
    assert lines[..0] == [];
    for i := 0 to |lines|
      invariant hs == Collected(lines[..i]) && headingIndex == |hs|
      invariant used.used == Members(SlugsOf(u, hs))
      invariant toc == TocEntries(hs, SlugsOf(u, hs)) && ids == IdMap(hs, SlugsOf(u, hs))
      invariant fresh(used)
    {
      CollectedStep(lines, i);
      match HeadingOf(Strip(lines[i]), 3)
      case None =>
        assert hs + [] == hs;
      case Some(t) =>
        var slug, _ := used.Slugify(u, t.text);
        SlugsSnoc(u, hs, t);
        MembersSnoc(SlugsOf(u, hs), slug);
        MapsSnoc(hs, SlugsOf(u, hs), t, slug);
        ids := ids[Key(t, headingIndex) := slug];
        headingIndex := headingIndex + 1;
        if InToc(t) {
          toc := toc + [Entry(t, slug)];
        } else {
          assert toc + [] == toc;
        }
        hs := hs + [t];
    }
    assert lines[..|lines|] == lines;
  }

  lemma SplitFirst(a: string, x: string, b: string, y: string)
    requires ':' !in a && ':' !in b && a + ":" + x == b + ":" + y
    ensures a == b && x == y
  {
    UntilIs(a + ":" + x, ':', |a|);
    UntilIs(b + ":" + y, ':', |b|);
    assert (a + ":" + x)[..|a|] == a && (a + ":" + x)[|a| + 1..] == x;
    assert (b + ":" + y)[..|b|] == b && (b + ":" + y)[|b| + 1..] == y;
  }

  lemma SplitLast(x: string, a: string, y: string, b: string)
    requires ':' !in a && ':' !in b && x + ":" + a == y + ":" + b
    ensures a == b && x == y
  {
    var s := x + ":" + a;
    assert s[|x|] == ':' && s[|y|] == ':';
    forall k | |x| < k < |s| ensures s[k] != ':' {
      assert s[k] == a[k - |x| - 1];
    }
    forall k | |y| < k < |s| ensures s[k] != ':' {
      assert s[k] == b[k - |y| - 1];
    }
    assert (x + ":" + a)[..|x|] == x && (x + ":" + a)[|x| + 1..] == a;
    assert (y + ":" + b)[..|y|] == y && (y + ":" + b)[|y| + 1..] == b;
  }

  /** A title may hold colons; the key still determines level, title and index. */
  lemma KeyInjective(s: Title, i: nat, t: Title, j: nat)
    requires Key(s, i) == Key(t, j)
    ensures s == t && i == j
  {
    var a, b := Decimal(s.level), Decimal(t.level);
    assert Key(s, i) == a + ":" + (s.text + ":" + Decimal(i));
    assert Key(t, j) == b + ":" + (t.text + ":" + Decimal(j));
    SplitFirst(a, s.text + ":" + Decimal(i), b, t.text + ":" + Decimal(j));
    SplitLast(s.text, Decimal(i), t.text, Decimal(j));
    DecimalInjective(s.level, t.level);
    DecimalInjective(i, j);
  }

  /** What the dictionary answers to the `k`-th rendered heading. */
  lemma {:induction false} LookupIs(hs: seq<Title>, slugs: seq<string>, t: Title, k: nat)
    requires |hs| == |slugs|
    ensures Lookup(IdMap(hs, slugs), Key(t, k)) == if k < |hs| && hs[k] == t then Some(slugs[k]) else None
  {
    hide Key;
    if hs != [] {
      var n := |hs| - 1;
      LookupIs(hs[..n], slugs[..n], t, k);
      if Key(t, k) == Key(hs[n], n) {
        KeyInjective(t, k, hs[n], n);
      }
    }
  }

  // ------------------------------------------------- where the two walks agree

  /** The headings rendered from the first `p` spans, in order. */
  function RenderedTitles(lines: seq<string>, spans: seq<Span>, p: nat): seq<Title>
    requires p <= |spans| && InRange(lines, spans)
  {
    if p == 0 then [] else
      RenderedTitles(lines, spans, p - 1)
      + if spans[p - 1].kind == HeadingK then [TitleAt(lines[spans[p - 1].lo])] else []
  }

  /** Rendered headings of level 4 among the first `p` spans: counted, but never collected. */
  function Level4Before(lines: seq<string>, spans: seq<Span>, p: nat): nat
    requires p <= |spans| && InRange(lines, spans)
  {
    if p == 0 then 0 else
      Level4Before(lines, spans, p - 1)
      + if spans[p - 1].kind == HeadingK && TitleAt(lines[spans[p - 1].lo]).level == 4 then 1 else 0
  }

  /** Lines in fences among the first `p` spans that look like headings: collected, never rendered. */
  function FencedBefore(lines: seq<string>, spans: seq<Span>, p: nat): nat
    requires p <= |spans| && InRange(lines, spans)
  {
    if p == 0 then 0 else
      var s := spans[p - 1];
      FencedBefore(lines, spans, p - 1)
      + if s.kind == FenceK then |Collected(lines[s.lo..s.hi])| else 0
  }

  /** The first line after the first `p` spans. */
  function EndOf(spans: seq<Span>, p: nat): nat
    requires p <= |spans|
  {
    if p == 0 then 0 else spans[p - 1].hi
  }

  lemma {:induction false} CollectedConcat(a: seq<string>, b: seq<string>)
    ensures Collected(a + b) == Collected(a) + Collected(b)
  {
    hide HeadingOf, Strip;
    if b == [] {
      assert a + b == a;
    } else {
      var n := |b| - 1;
      assert (a + b)[..|a + b| - 1] == a + b[..n];
      CollectedConcat(a, b[..n]);
    }
  }

  lemma {:induction false} CollectedNone(lines: seq<string>)
    requires forall m :: 0 <= m < |lines| ==> HeadingOf(Strip(lines[m]), 3).None?
    ensures Collected(lines) == []
  {
    hide HeadingOf, Strip;
    if lines != [] {
      CollectedNone(lines[..|lines| - 1]);
    }
  }

  lemma HeadingOf3(s: string)
    ensures HeadingOf(s, 3)
         == match HeadingOf(s, 4) case Some(t) => (if t.level <= 3 then Some(t) else None) case None => None
  {}

  lemma NoHeadingLine(u: Unicode, lines: seq<string>, m: nat)
    requires m < |lines|
    requires (KindAt(u, lines, m) != HeadingK && KindAt(u, lines, m) != FenceK) || IsPipeLine(lines[m])
    ensures HeadingOf(Strip(lines[m]), 3).None?
  {
    hide Strip, ItemOf;
    HeadingOf3(Strip(lines[m]));
  }

  lemma HeadingLine(u: Unicode, lines: seq<string>, m: nat)
    requires m < |lines| && KindAt(u, lines, m) == HeadingK
    ensures HeadingOf(Strip(lines[m]), 4) == Some(TitleAt(lines[m]))
    ensures 1 <= TitleAt(lines[m]).level <= 4
  {
    hide Strip, ItemOf, HeadingOf, IsFence, IsPipe, IsCaption;
  }

  /** What the two walks take from one span. */
  lemma SpanTitles(u: Unicode, lines: seq<string>, s: Span)
    requires IsSpan(u, lines, s)
    ensures s.kind == HeadingK ==>
      var t := TitleAt(lines[s.lo]);
      Collected(lines[s.lo..s.hi]) == if t.level <= 3 then [t] else []
    ensures s.kind == HeadingK ==> 1 <= TitleAt(lines[s.lo]).level <= 4
    ensures s.kind != HeadingK && s.kind != FenceK ==> Collected(lines[s.lo..s.hi]) == []
  {
    hide KindAt, HeadingOf, Strip, IsPipeLine, IsFenceLine;
    var part := lines[s.lo..s.hi];
    if s.kind == HeadingK {
      HeadingLine(u, lines, s.lo);
      HeadingOf3(Strip(lines[s.lo]));
      assert part == [lines[s.lo]];
      assert part[..0] == [];
    } else if s.kind != FenceK {
      forall m | 0 <= m < |part| ensures HeadingOf(Strip(part[m]), 3).None? {
        NoHeadingLine(u, lines, s.lo + m);
      }
      CollectedNone(part);
    }
  }

  lemma SegmentationAt(u: Unicode, lines: seq<string>, spans: seq<Span>, p: nat)
    requires IsSegmentation(u, lines, spans, 0) && p < |spans|
    ensures IsSpan(u, lines, spans[p]) && EndOf(spans, p) == spans[p].lo < spans[p].hi <= |lines|
  {}

  /** The two counters drift apart by exactly the level-4 headings and the fenced look-alikes. */
  lemma {:induction false} Balance(u: Unicode, lines: seq<string>, spans: seq<Span>, p: nat)
    requires IsSegmentation(u, lines, spans, 0) && InRange(lines, spans) && p <= |spans|
    ensures EndOf(spans, p) <= |lines|
    ensures |Collected(lines[..EndOf(spans, p)])| + Level4Before(lines, spans, p)
         == |RenderedTitles(lines, spans, p)| + FencedBefore(lines, spans, p)
    ensures Level4Before(lines, spans, p) == FencedBefore(lines, spans, p) == 0 ==>
      Collected(lines[..EndOf(spans, p)]) == RenderedTitles(lines, spans, p)
  {
    hide IsSegmentation, IsSpan, TitleAt, Collected;
    if p == 0 {
      CollectedNone([]);
      assert lines[..0] == [];
    } else {
      Balance(u, lines, spans, p - 1);
      var s := spans[p - 1];
      SegmentationAt(u, lines, spans, p - 1);
      SpanTitles(u, lines, s);
      assert lines[..s.hi] == lines[..s.lo] + lines[s.lo..s.hi];
      CollectedConcat(lines[..s.lo], lines[s.lo..s.hi]);
    }
  }

  // ------------------------------------------------------------- the whole document

  function Spans(u: Unicode, lines: seq<string>): (spans: seq<Span>)
    ensures InRange(lines, spans)
  {
    SegmentInRange(u, lines, 0);
    Segment(u, lines, 0)
  }

  function AllSlugs(u: Unicode, lines: seq<string>): (r: seq<string>)
    ensures |r| == |Collected(lines)|
  {
    SlugsOf(u, Collected(lines))
  }

  /** The block list of a document rendered with the dictionary collected from it. */
  function Report(u: Unicode, lines: seq<string>): (blocks: seq<Block>)
    ensures |blocks| == |Spans(u, lines)|
  {
    Document(u, lines, IdMap(Collected(lines), AllSlugs(u, lines)))
  }

  lemma AllSlugsDistinct(u: Unicode, lines: seq<string>)
    ensures Distinct(AllSlugs(u, lines))
    ensures forall k :: 0 <= k < |Collected(lines)| ==> IsSlug(AllSlugs(u, lines)[k])
  {
    hide IsSlug, Collected;
    SlugsDistinct(u, Texts(Collected(lines)));
  }

  lemma {:induction false} TitlesShift(lines: seq<string>, spans: seq<Span>, p: nat)
    requires 0 < p <= |spans| && InRange(lines, spans)
    ensures |RenderedTitles(lines, spans, p)|
         == (if spans[0].kind == HeadingK then 1 else 0) + |RenderedTitles(lines, spans[1..], p - 1)|
  {
    hide TitleAt;
    if p > 1 {
      TitlesShift(lines, spans, p - 1);
      assert spans[1..][p - 2] == spans[p - 1];
    }
  }

  lemma NoTitles(lines: seq<string>, spans: seq<Span>)
    requires InRange(lines, spans)
    ensures RenderedTitles(lines, spans, 0) == []
  {}

  lemma {:induction false} BlockAt(u: Unicode, lines: seq<string>, spans: seq<Span>, ids: map<string, string>,
                                   k: nat, p: nat)
    requires InRange(lines, spans) && p < |spans|
    ensures BlocksOf(u, lines, spans, ids, k)[p]
         == BlockOf(u, lines, spans[p], ids, k + |RenderedTitles(lines, spans, p)|)
  {
    hide BlockOf, RenderedTitles;
    if p == 0 {
      NoTitles(lines, spans);
    } else {
      TitlesShift(lines, spans, p);
      BlockAt(u, lines, spans[1..], ids, if spans[0].kind == HeadingK then k + 1 else k, p - 1);
    }
  }

  lemma HeadingBlock(u: Unicode, lines: seq<string>, s: Span, ids: map<string, string>, k: nat)
    requires s.lo < s.hi <= |lines|
    ensures BlockOf(u, lines, s, ids, k).Heading? <==> s.kind == HeadingK
    ensures s.kind == HeadingK ==>
      BlockOf(u, lines, s, ids, k) == Heading(TitleAt(lines[s.lo]), Lookup(ids, Key(TitleAt(lines[s.lo]), k)))
  {
    hide TitleAt, Key, Lookup, Rows, Items, StripAll, IsFenceLine, Strip;
  }

  /** The `k`-th rendered heading carries the `k`-th slug, or no anchor at all; it carries one
      exactly when the `k`-th collected heading has the same level and title. */
  lemma IdAt(u: Unicode, lines: seq<string>, p: nat)
    requires p < |Report(u, lines)|
    ensures Report(u, lines)[p].Heading? <==> Spans(u, lines)[p].kind == HeadingK
    ensures Report(u, lines)[p].Heading? ==>
      var k := |RenderedTitles(lines, Spans(u, lines), p)|;
      var t := TitleAt(lines[Spans(u, lines)[p].lo]);
      var hs := Collected(lines);
      Report(u, lines)[p] == Heading(t, if k < |hs| && hs[k] == t then Some(AllSlugs(u, lines)[k]) else None)
  {
    hide RenderedTitles, TitleAt, Key, Lookup, IdMap, Collected, AllSlugs, Segment, BlockOf;
    var spans, hs := Spans(u, lines), Collected(lines);
    var ids := IdMap(hs, AllSlugs(u, lines));
    BlockAt(u, lines, spans, ids, 0, p);
    var k := |RenderedTitles(lines, spans, p)|;
    LookupIs(hs, AllSlugs(u, lines), TitleAt(lines[spans[p].lo]), k);
    HeadingBlock(u, lines, spans[p], ids, k);
  }

  lemma {:induction false} TitlesGrow(lines: seq<string>, spans: seq<Span>, p: nat, q: nat)
    requires p < q <= |spans| && InRange(lines, spans) && spans[p].kind == HeadingK
    ensures |RenderedTitles(lines, spans, p)| < |RenderedTitles(lines, spans, q)|
    ensures RenderedTitles(lines, spans, q)[|RenderedTitles(lines, spans, p)|] == TitleAt(lines[spans[p].lo])
    decreases q
  {
    hide TitleAt;
    if p < q - 1 {
      TitlesGrow(lines, spans, p, q - 1);
    }
  }

  /** No two headings of a report share an anchor, and every anchor is a proper slug. */
  lemma AnchorsDistinct(u: Unicode, lines: seq<string>, p: nat, q: nat)
    requires p < q < |Report(u, lines)|
    requires Report(u, lines)[p].Heading? && Report(u, lines)[p].id.Some?
    requires Report(u, lines)[q].Heading? && Report(u, lines)[q].id.Some?
    ensures Report(u, lines)[p].id != Report(u, lines)[q].id
    ensures IsSlug(Report(u, lines)[p].id.value) && IsSlug(Report(u, lines)[q].id.value)
  {
    hide RenderedTitles, TitleAt, Collected, Report, Spans, AllSlugs, IsSlug;
    IdAt(u, lines, p);
    IdAt(u, lines, q);
    TitlesGrow(lines, Spans(u, lines), p, q);
    AllSlugsDistinct(u, lines);
  }

  lemma {:induction false} CollectedAt(lines: seq<string>, i: nat, t: Title)
    requires i < |lines| && HeadingOf(Strip(lines[i]), 3) == Some(t)
    ensures var c := |Collected(lines[..i])|; c < |Collected(lines)| && Collected(lines)[c] == t
  {
    hide HeadingOf, Strip, Collected;
    CollectedStep(lines, i);
    assert lines == lines[..i + 1] + lines[i + 1..];
    CollectedConcat(lines[..i + 1], lines[i + 1..]);
  }

  lemma SpanKind(u: Unicode, lines: seq<string>, s: Span)
    requires IsSpan(u, lines, s)
    ensures s.lo < |lines| && KindAt(u, lines, s.lo) == s.kind
  {}

  /** A heading of level 1 to 3 carries the slug `collect_toc` made for its own line exactly when
      the level-4 headings rendered before it balance the look-alikes fenced before it. */
  lemma OwnSlugIff(u: Unicode, lines: seq<string>, p: nat)
    requires p < |Report(u, lines)| && Report(u, lines)[p].Heading? && Report(u, lines)[p].title.level <= 3
    ensures var spans := Spans(u, lines);
      var c := |Collected(lines[..spans[p].lo])|;
      && c < |AllSlugs(u, lines)|
      && (Report(u, lines)[p].id == Some(AllSlugs(u, lines)[c])
          <==> Level4Before(lines, spans, p) == FencedBefore(lines, spans, p))
  {
    hide RenderedTitles, TitleAt, Collected, Report, Segment, HeadingOf, Strip, Level4Before, FencedBefore, IsSpan,
      KindAt, AllSlugs, IsSlug;
    var spans := Spans(u, lines);
    IdAt(u, lines, p);
    SegmentationUnique(u, lines, spans, 0);
    Balance(u, lines, spans, p);
    SpanKind(u, lines, spans[p]);
    assert EndOf(spans, p) == spans[p].lo;
    var i := spans[p].lo;
    HeadingLine(u, lines, i);
    HeadingOf3(Strip(lines[i]));
    CollectedAt(lines, i, TitleAt(lines[i]));
    AllSlugsDistinct(u, lines);
  }

  predicate HasAnchor(b: Block, slug: string) { b.Heading? && b.id == Some(slug) }

  lemma LinkOnlyIf(u: Unicode, lines: seq<string>, k: nat, p: nat)
    requires k < |Collected(lines)| && p < |Report(u, lines)|
    requires HasAnchor(Report(u, lines)[p], AllSlugs(u, lines)[k])
    ensures var rendered := RenderedTitles(lines, Spans(u, lines), |Spans(u, lines)|);
      k < |rendered| && rendered[k] == Collected(lines)[k]
  {
    hide RenderedTitles, TitleAt, Collected, Report, Spans, AllSlugs, IsSlug;
    IdAt(u, lines, p);
    TitlesGrow(lines, Spans(u, lines), p, |Spans(u, lines)|);
    AllSlugsDistinct(u, lines);
  }

  lemma {:induction false} TitleFrom(lines: seq<string>, spans: seq<Span>, q: nat, k: nat) returns (p: nat)
    requires q <= |spans| && InRange(lines, spans) && k < |RenderedTitles(lines, spans, q)|
    ensures p < q && spans[p].kind == HeadingK && |RenderedTitles(lines, spans, p)| == k
    ensures TitleAt(lines[spans[p].lo]) == RenderedTitles(lines, spans, q)[k]
  {
    hide TitleAt;
    if k < |RenderedTitles(lines, spans, q - 1)| {
      p := TitleFrom(lines, spans, q - 1, k);
    } else {
      p := q - 1;
    }
  }

  lemma LinkIf(u: Unicode, lines: seq<string>, k: nat) returns (p: nat)
    requires k < |Collected(lines)|
    requires var rendered := RenderedTitles(lines, Spans(u, lines), |Spans(u, lines)|);
      k < |rendered| && rendered[k] == Collected(lines)[k]
    ensures p < |Report(u, lines)| && HasAnchor(Report(u, lines)[p], AllSlugs(u, lines)[k])
  {
    hide RenderedTitles, TitleAt, Collected, Report, Spans, AllSlugs;
    p := TitleFrom(lines, Spans(u, lines), |Spans(u, lines)|, k);
    IdAt(u, lines, p);
  }

  /** A contents link leads somewhere exactly when the heading rendered under the same number
      has the same level and title; `AnchorsDistinct` adds that the target is the only one. */
  lemma LinkResolvesIff(u: Unicode, lines: seq<string>, k: nat)
    requires k < |Collected(lines)|
    ensures var rendered := RenderedTitles(lines, Spans(u, lines), |Spans(u, lines)|);
      (exists p :: 0 <= p < |Report(u, lines)| && HasAnchor(Report(u, lines)[p], AllSlugs(u, lines)[k]))
      <==> k < |rendered| && rendered[k] == Collected(lines)[k]
  {
    hide RenderedTitles, TitleAt, Collected, Report, Segment, AllSlugs, Spans;
    var blocks, slug := Report(u, lines), AllSlugs(u, lines)[k];
    var rendered := RenderedTitles(lines, Spans(u, lines), |Spans(u, lines)|);
    if p :| 0 <= p < |blocks| && HasAnchor(blocks[p], slug) {
      LinkOnlyIf(u, lines, k, p);
    }
    if k < |rendered| && rendered[k] == Collected(lines)[k] {
      var p := LinkIf(u, lines, k);
    }
  }

  /** Without level-4 headings and without look-alikes in fences, every contents link resolves. */
  lemma AllLinksResolve(u: Unicode, lines: seq<string>, k: nat)
    requires k < |Collected(lines)|
    requires var spans := Spans(u, lines);
      Level4Before(lines, spans, |spans|) == FencedBefore(lines, spans, |spans|) == 0
    ensures exists p :: 0 <= p < |Report(u, lines)| && HasAnchor(Report(u, lines)[p], AllSlugs(u, lines)[k])
  {
    hide RenderedTitles, TitleAt, Collected, Report, Segment, IsSpan, Level4Before, FencedBefore;
    var spans := Spans(u, lines);
    SegmentationUnique(u, lines, spans, 0);
    Balance(u, lines, spans, |spans|);
    assert lines[..|lines|] == lines;
    LinkResolvesIff(u, lines, k);
  }
}
