/**
 How a document falls into blocks. `KindAt` is the chain of tests `render_markdown` makes at a
 line; `Segment` is the result of its walk; `IsSegmentation` says what that result is without
 walking.
 */
module Segments {
  import opened Options
  import opened Text

  // --------------------------------------------------------------- one line

  datatype Title = Title(level: nat, text: string)

  function HashRun(s: string): (n: nat)
    ensures n <= |s| && (forall i :: 0 <= i < n ==> s[i] == '#') && (n < |s| ==> s[n] != '#')
  {
    if s == "" || s[0] != '#' then 0 else 1 + HashRun(s[1..])
  }

  /** `^(#{1,max})\s+(.*)$` on a stripped line; the title is stripped once more. */
  function HeadingOf(s: string, max: nat): (r: Option<Title>)
    ensures r.Some? ==> s != "" && s[0] == '#' && 1 <= r.value.level <= max && r.value.level == HashRun(s)
  {
    var n := HashRun(s);
    if 1 <= n <= max && n < |s| && IsSpace(s[n]) then
      Some(Title(n, Strip(TrimLeft(s[n..], IsSpace))))
    else None
  }

  function DigitRun(u: Unicode, s: string): (n: nat)
    ensures n <= |s|
  {
    if s == "" || !u.isDecimal(s[0]) then 0 else 1 + DigitRun(u, s[1..])
  }

  /** `^[-*]\s+(.*)$`, else `^\d+\.\s+(.*)$`, on a stripped line. */
  function ItemOf(u: Unicode, s: string): Option<string> {
    if |s| >= 2 && (s[0] == '-' || s[0] == '*') && IsSpace(s[1]) then Some(TrimLeft(s[1..], IsSpace))
    else
      var n := DigitRun(u, s);
      if n > 0 && n + 1 < |s| && s[n] == '.' && IsSpace(s[n + 1]) then Some(TrimLeft(s[n + 1..], IsSpace))
      else None
  }

  /** The tests `startswith("```")` and `startswith("|")`. */
  predicate IsFence(s: string) { |s| >= 3 && s[0] == s[1] == s[2] == '`' }

  predicate IsPipe(s: string) { s != "" && s[0] == '|' }

  predicate IsFenceLine(line: string) { IsFence(Strip(line)) }

  predicate IsPipeLine(line: string) { IsPipe(Strip(line)) }

  predicate IsCaption(s: string) { "\U{15E}ekil " <= s || "Sekil " <= s }

  // ------------------------------------------------------ a line in its context

  datatype Kind = FenceK | BlankK | TableK | CaptionK | HeadingK | ItemK | PlainK

  function KindAt(u: Unicode, lines: seq<string>, i: nat): Kind
    requires i < |lines|
  {
    var s := Strip(lines[i]);
    if IsFence(s) then FenceK
    else if s == "" then BlankK
    else if IsPipe(s) && i + 1 < |lines| && IsPipeLine(lines[i + 1]) then TableK
    else if IsCaption(s) then CaptionK
    else if HeadingOf(s, 4).Some? then HeadingK
    else if ItemOf(u, s).Some? then ItemK
    else PlainK
  }

  /** The end of the run of `true` from `i` on. */
  function RunEnd(flags: seq<bool>, i: nat): (j: nat)
    requires i <= |flags|
    ensures i <= j <= |flags|
    ensures forall m :: i <= m < j ==> flags[m]
    ensures j < |flags| ==> !flags[j]
    decreases |flags| - i
  {
    if i == |flags| || !flags[i] then i else RunEnd(flags, i + 1)
  }

  function CodeFlags(lines: seq<string>): (r: seq<bool>)
    ensures |r| == |lines| && forall m :: 0 <= m < |lines| ==> r[m] == !IsFenceLine(lines[m])
  {
    seq(|lines|, (m: nat) requires m < |lines| => !IsFenceLine(lines[m]))
  }

  function PipeFlags(lines: seq<string>): (r: seq<bool>)
    ensures |r| == |lines| && forall m :: 0 <= m < |lines| ==> r[m] == IsPipeLine(lines[m])
  {
    seq(|lines|, (m: nat) requires m < |lines| => IsPipeLine(lines[m]))
  }

  function KindFlags(u: Unicode, lines: seq<string>, k: Kind): (r: seq<bool>)
    ensures |r| == |lines| && forall m :: 0 <= m < |lines| ==> r[m] == (KindAt(u, lines, m) == k)
  {
    seq(|lines|, (m: nat) requires m < |lines| => KindAt(u, lines, m) == k)
  }

  /** The next fence line from `i` on, or the end. */
  function NextFence(lines: seq<string>, i: nat): (j: nat)
    requires i <= |lines|
    ensures i <= j <= |lines|
  {
    RunEnd(CodeFlags(lines), i)
  }

  /** The end of the run of lines that begin with a pipe. */
  function PipeEnd(lines: seq<string>, i: nat): (j: nat)
    requires i <= |lines|
    ensures i <= j <= |lines|
  {
    RunEnd(PipeFlags(lines), i)
  }

  /** The end of the run of lines of kind `k`. */
  function KindEnd(u: Unicode, lines: seq<string>, k: Kind, i: nat): (j: nat)
    requires i <= |lines|
    ensures i <= j <= |lines|
  {
    RunEnd(KindFlags(u, lines, k), i)
  }

  // ----------------------------------------------------------- the segmentation

  datatype Span = Span(kind: Kind, lo: nat, hi: nat)

  lemma PipeStarts(lines: seq<string>, i: nat)
    requires i < |lines| && IsPipeLine(lines[i])
    ensures PipeEnd(lines, i) > i
  {
    hide IsPipeLine;
    assert PipeFlags(lines)[i];
  }

  lemma KindStarts(u: Unicode, lines: seq<string>, k: Kind, i: nat)
    requires i < |lines| && KindAt(u, lines, i) == k
    ensures KindEnd(u, lines, k, i) > i
  {
    hide KindAt;
    assert KindFlags(u, lines, k)[i];
  }

  function SpanAt(u: Unicode, lines: seq<string>, i: nat): (s: Span)
    requires i < |lines|
    ensures s.lo == i < s.hi <= |lines| && s.kind == KindAt(u, lines, i)
  {
    var k := KindAt(u, lines, i);
    Span(k, i,
      match k
      case FenceK => (var j := NextFence(lines, i + 1); if j < |lines| then j + 1 else j)
      case TableK => (PipeStarts(lines, i); PipeEnd(lines, i))
      case ItemK => (KindStarts(u, lines, k, i); KindEnd(u, lines, k, i))
      case PlainK => (KindStarts(u, lines, k, i); KindEnd(u, lines, k, i))
      case _ => i + 1)
  }

  /** The spans from line `i` on, as the walk finds them. */
  function Segment(u: Unicode, lines: seq<string>, i: nat): seq<Span>
    requires i <= |lines|
    decreases |lines| - i
  {
    if i == |lines| then [] else
      var s := SpanAt(u, lines, i);
      [s] + Segment(u, lines, s.hi)
  }

  /** One span on its own: its kind is that of its first line, and it is as long as it can be. */
  predicate IsSpan(u: Unicode, lines: seq<string>, s: Span) {
    && s.lo < s.hi <= |lines|
    && s.kind == KindAt(u, lines, s.lo)
    && match s.kind
       case FenceK =>
         && (forall m :: s.lo < m < s.hi - 1 ==> !IsFenceLine(lines[m]))
         && (if s.hi - 1 > s.lo && IsFenceLine(lines[s.hi - 1]) then true else s.hi == |lines|)
       case TableK =>
         && (forall m :: s.lo <= m < s.hi ==> IsPipeLine(lines[m]))
         && (s.hi < |lines| ==> !IsPipeLine(lines[s.hi]))
       case ItemK =>
         && (forall m :: s.lo <= m < s.hi ==> KindAt(u, lines, m) == ItemK)
         && (s.hi < |lines| ==> KindAt(u, lines, s.hi) != ItemK)
       case PlainK =>
         && (forall m :: s.lo <= m < s.hi ==> KindAt(u, lines, m) == PlainK)
         && (s.hi < |lines| ==> KindAt(u, lines, s.hi) != PlainK)
       case _ => s.hi == s.lo + 1
  }

  /** Spans that lie end to end from `i` to the last line, each of them maximal. */
  predicate IsSegmentation(u: Unicode, lines: seq<string>, spans: seq<Span>, i: nat) {
    && (forall p :: 0 <= p < |spans| ==> IsSpan(u, lines, spans[p]))
    && (forall p :: 0 < p < |spans| ==> spans[p].lo == spans[p - 1].hi)
    && (if spans == [] then i == |lines| else spans[0].lo == i && spans[|spans| - 1].hi == |lines|)
  }

  lemma TableLine(u: Unicode, lines: seq<string>, i: nat)
    requires i < |lines| && KindAt(u, lines, i) == TableK
    ensures IsPipeLine(lines[i])
  {}

  lemma SpanIsMaximal(u: Unicode, lines: seq<string>, i: nat)
    requires i < |lines|
    ensures IsSpan(u, lines, SpanAt(u, lines, i))
  {
    hide KindAt, IsPipeLine, IsFenceLine;
    if KindAt(u, lines, i) == TableK {
      TableLine(u, lines, i);
    }
  }

  lemma SpanUnique(u: Unicode, lines: seq<string>, s: Span)
    requires IsSpan(u, lines, s)
    ensures s.lo < |lines| && s == SpanAt(u, lines, s.lo)
  {
    hide KindAt, IsPipeLine, IsFenceLine;
  }

  lemma PrependSpan(u: Unicode, lines: seq<string>, s: Span, rest: seq<Span>)
    requires s.hi <= |lines|
    ensures IsSegmentation(u, lines, [s] + rest, s.lo) <==>
            IsSpan(u, lines, s) && IsSegmentation(u, lines, rest, s.hi)
  {
    hide IsSpan;
    var spans := [s] + rest;
    if IsSegmentation(u, lines, spans, s.lo) {
      assert IsSpan(u, lines, spans[0]);
      assert forall p :: 0 <= p < |rest| ==> rest[p] == spans[p + 1];
    }
  }

  /** The walk finds the one segmentation there is. */
  lemma {:induction false} SegmentationUnique(u: Unicode, lines: seq<string>, spans: seq<Span>, i: nat)
    requires i <= |lines|
    ensures IsSegmentation(u, lines, spans, i) <==> spans == Segment(u, lines, i)
    decreases |lines| - i, |spans|
  {
    hide KindAt, IsSpan, SpanAt;
    if i == |lines| {
      if spans != [] && IsSpan(u, lines, spans[0]) {
        SpanUnique(u, lines, spans[0]);
      }
    } else if spans != [] {
      var s := SpanAt(u, lines, i);
      SpanIsMaximal(u, lines, i);
      assert spans == [spans[0]] + spans[1..];
      if spans[0].lo == i && IsSpan(u, lines, spans[0]) {
        SpanUnique(u, lines, spans[0]);
      }
      if spans[0] == s {
        PrependSpan(u, lines, s, spans[1..]);
        SegmentationUnique(u, lines, spans[1..], s.hi);
      }
    }
  }
}
