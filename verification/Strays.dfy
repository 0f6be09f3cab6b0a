/**
 The two kinds of line that put the walks of `collect_toc` and `render_markdown` out of step, each in
 the shortest documents that show it: a rendered heading of level 4, which is never collected, and
 a heading look-alike in a fence, which is never rendered.
 */
module Strays {
  import opened Options
  import opened Text
  import opened Segments
  import opened Blocks
  import opened Slug
  import opened Headings

  lemma KindOfHeading(u: Unicode, lines: seq<string>, i: nat)
    requires i < |lines| && HeadingOf(Strip(lines[i]), 4).Some?
    ensures KindAt(u, lines, i) == HeadingK && !IsFenceLine(lines[i])
    ensures TitleAt(lines[i]) == HeadingOf(Strip(lines[i]), 4).value
  {
    hide Strip, ItemOf;
  }

  lemma KindOfFence(u: Unicode, lines: seq<string>, i: nat)
    requires i < |lines| && IsFenceLine(lines[i])
    ensures KindAt(u, lines, i) == FenceK && HeadingOf(Strip(lines[i]), 3).None?
  {
    hide Strip, ItemOf;
  }

  lemma CollectedOne(a: string)
    ensures Collected([a]) == match HeadingOf(Strip(a), 3) case Some(t) => [t] case None => []
  {
    hide HeadingOf, Strip;
    assert [a][..0] == [];
  }

  // ------------------------------------------------------------------ a heading of level 4

  /** Level 4, then level 1 to 3. */
  predicate IsDeepThenListed(a: string, b: string) {
    && HeadingOf(Strip(a), 4).Some? && HeadingOf(Strip(a), 4).value.level == 4
    && HeadingOf(Strip(b), 3).Some?
  }

  lemma DeepSpans(u: Unicode, a: string, b: string)
    requires IsDeepThenListed(a, b)
    ensures Spans(u, [a, b]) == [Span(HeadingK, 0, 1), Span(HeadingK, 1, 2)]
  {
    hide Strip, KindAt, HeadingOf;
    var lines := [a, b];
    HeadingOf3(Strip(b));
    KindOfHeading(u, lines, 0);
    KindOfHeading(u, lines, 1);
    SegmentationUnique(u, lines, [Span(HeadingK, 0, 1), Span(HeadingK, 1, 2)], 0);
  }

  lemma DeepCollected(a: string, b: string)
    requires IsDeepThenListed(a, b)
    ensures Collected([a, b]) == [HeadingOf(Strip(b), 3).value]
  {
    hide Strip, HeadingOf;
    HeadingOf3(Strip(a));
    CollectedOne(a);
    CollectedOne(b);
    assert [a, b] == [a] + [b];
    CollectedConcat([a], [b]);
  }

  lemma RenderedBoth(lines: seq<string>)
    requires |lines| == 2
    ensures InRange(lines, [Span(HeadingK, 0, 1), Span(HeadingK, 1, 2)])
    ensures RenderedTitles(lines, [Span(HeadingK, 0, 1), Span(HeadingK, 1, 2)], 2)
         == [TitleAt(lines[0]), TitleAt(lines[1])]
  {
    hide TitleAt;
    NoTitles(lines, [Span(HeadingK, 0, 1), Span(HeadingK, 1, 2)]);
  }

  lemma HeadingLevels(s: string)
    ensures HeadingOf(s, 3).Some? ==> HeadingOf(s, 3).value.level <= 3
  {}

  /** The one contents link leads nowhere. */
  lemma DeepBreaksLink(u: Unicode, a: string, b: string)
    requires IsDeepThenListed(a, b)
    ensures |Collected([a, b])| == 1
    ensures !exists p :: 0 <= p < |Report(u, [a, b])| && HasAnchor(Report(u, [a, b])[p], AllSlugs(u, [a, b])[0])
  {
    hide Strip, Collected, RenderedTitles, Report, AllSlugs, HeadingOf, TitleAt;
    DeepSpans(u, a, b);
    hide Spans;
    DeepCollected(a, b);
    RenderedBoth([a, b]);
    KindOfHeading(u, [a, b], 0);
    HeadingLevels(Strip(b));
    LinkResolvesIff(u, [a, b], 0);
  }

  lemma Bare(s: string)
    requires s != "" && !IsSpace(s[0]) && !IsSpace(s[|s| - 1])
    ensures Strip(s) == s
  {}

  lemma {:induction false} HashRunIs(s: string, n: nat)
    requires n < |s| && s[n] != '#' && forall i :: 0 <= i < n ==> s[i] == '#'
    ensures HashRun(s) == n
  {
    if n > 0 {
      HashRunIs(s[1..], n - 1);
    }
  }

  lemma DeepExample()
    ensures IsDeepThenListed("#### a", "## b")
  {
    hide Strip;
    Bare("#### a");
    Bare("## b");
    HashRunIs("#### a", 4);
    HashRunIs("## b", 2);
  }

  lemma LinkLeadsNowhere(u: Unicode)
    ensures var lines := ["#### a", "## b"];
      && |Collected(lines)| == 1
      && !exists p :: 0 <= p < |Report(u, lines)| && HasAnchor(Report(u, lines)[p], AllSlugs(u, lines)[0])
  {
    hide Collected, Report, AllSlugs;
    DeepExample();
    DeepBreaksLink(u, "#### a", "## b");
  }

  // ------------------------------------------------------------- a look-alike in a fence

  predicate IsFencedThenReal(x: string, h: string) { IsFenceLine(x) && HeadingOf(Strip(h), 3).Some? }

  lemma FencedSpans(u: Unicode, x: string, h: string)
    requires IsFencedThenReal(x, h)
    ensures Spans(u, [x, h, x, h]) == [Span(FenceK, 0, 3), Span(HeadingK, 3, 4)]
  {
    hide Strip, KindAt, HeadingOf, IsFenceLine;
    var lines := [x, h, x, h];
    HeadingOf3(Strip(h));
    KindOfFence(u, lines, 0);
    KindOfHeading(u, lines, 1);
    KindOfHeading(u, lines, 3);
    SegmentationUnique(u, lines, [Span(FenceK, 0, 3), Span(HeadingK, 3, 4)], 0);
  }

  lemma FenceIsNoHeading(x: string)
    requires IsFenceLine(x)
    ensures HeadingOf(Strip(x), 3).None?
  {
    hide Strip;
  }

  lemma FencedCollected(x: string, h: string, t: Title)
    requires IsFenceLine(x) && HeadingOf(Strip(h), 3) == Some(t)
    ensures Collected([x, h, x]) == [t] && Collected([x, h, x, h]) == [t, t]
  {
    hide Strip, HeadingOf, IsFenceLine, IsFence;
    FenceIsNoHeading(x);
    CollectedOne(x);
    CollectedOne(h);
    CollectedConcat([x], [h]);
    CollectedConcat([x] + [h], [x]);
    CollectedConcat([x] + [h] + [x], [h]);
    assert [x, h, x] == [x] + [h] + [x] && [x, h, x, h] == [x] + [h] + [x] + [h];
  }

  lemma RenderedTwo(lines: seq<string>)
    requires |lines| == 4
    ensures InRange(lines, [Span(FenceK, 0, 3), Span(HeadingK, 3, 4)])
    ensures RenderedTitles(lines, [Span(FenceK, 0, 3), Span(HeadingK, 3, 4)], 1) == []
    ensures RenderedTitles(lines, [Span(FenceK, 0, 3), Span(HeadingK, 3, 4)], 2) == [TitleAt(lines[3])]
  {
    hide TitleAt;
    NoTitles(lines, [Span(FenceK, 0, 3), Span(HeadingK, 3, 4)]);
  }

  /** The rendered heading carries the slug of the fenced line, and its own leads nowhere. */
  lemma FencedTakesSlug(u: Unicode, x: string, h: string)
    requires IsFencedThenReal(x, h)
    ensures var lines := [x, h, x, h];
      var slugs, blocks := AllSlugs(u, lines), Report(u, lines);
      && |slugs| == |blocks| == 2 && slugs[0] != slugs[1]
      && blocks[1] == Heading(HeadingOf(Strip(h), 3).value, Some(slugs[0]))
      && Spans(u, lines) == [Span(FenceK, 0, 3), Span(HeadingK, 3, 4)] && |Collected(lines[..3])| == 1
      && !exists p :: 0 <= p < |blocks| && HasAnchor(blocks[p], slugs[1])
  {
    hide Strip, Collected, RenderedTitles, Report, AllSlugs, HeadingOf, TitleAt, IsSlug;
    var lines := [x, h, x, h];
    FencedSpans(u, x, h);
    HeadingOf3(Strip(h));
    FencedCollected(x, h, HeadingOf(Strip(h), 3).value);
    RenderedTwo(lines);
    KindOfHeading(u, lines, 3);
    assert lines[..3] == [x, h, x];
    hide Spans;
    IdAt(u, lines, 1);
    AllSlugsDistinct(u, lines);
    LinkResolvesIff(u, lines, 1);
  }

  lemma FencedExample()
    ensures IsFencedThenReal("```", "# a") && HeadingOf(Strip("# a"), 3).value == Title(1, "a")
  {
    hide Strip;
    Bare("```");
    Bare("# a");
    Bare("a");
    HashRunIs("# a", 1);
  }

  lemma HeadingTakesOtherSlug(u: Unicode)
    ensures var lines := ["```", "# a", "```", "# a"];
      var slugs, blocks := AllSlugs(u, lines), Report(u, lines);
      && |slugs| == |blocks| == 2 && slugs[0] != slugs[1]
      && blocks[1] == Heading(Title(1, "a"), Some(slugs[0]))
      && !exists p :: 0 <= p < |blocks| && HasAnchor(blocks[p], slugs[1])
  {
    hide Collected, Report, AllSlugs;
    FencedExample();
    FencedTakesSlug(u, "```", "# a");
  }
}
