/**
 Whether the two inline tags nest. The bold pass runs over text that already holds code tags, so
 a bold span may cut a code span in two; this module says exactly when that happens.
 */
module Nesting {
  import opened Options
  import opened Text
  import opened Html
  import opened Inline

  /** Run a stack of open tags over `s`: a closing tag must meet its own opening tag. */
  function Nest(s: string, st: seq<Tag>): Option<seq<Tag>>
    decreases |s|
  {
    if s == "" then Some(st) else
      match HeadOf(s)
      case Plain => Nest(s[1..], st)
      case Open(t) => Nest(s[|TagText(Open(t))|..], [t] + st)
      case Close(t) => if st != [] && st[0] == t then Nest(s[|TagText(Close(t))|..], st[1..]) else None
  }

  predicate WellNested(s: string) { Nest(s, []) == Some([]) }

  function Bind(o: Option<seq<Tag>>, y: string): Option<seq<Tag>> {
    if o.None? then None else Nest(y, o.value)
  }

  /** Every `<` of `s` begins a code tag. */
  predicate CodeTagged(s: string) {
    forall i :: 0 <= i < |s| && s[i] == '<' ==> HeadOf(s[i..]) == Open(Code) || HeadOf(s[i..]) == Close(Code)
  }

  /** The guard: each span the bold pass will match holds only whole code spans. */
  predicate BoldSpansWhole(t: string)
    decreases |t|
  {
    t == "" ||
    var n := BoldMatch(t);
    if n > 0 then WellNested(t[2..n - 2]) && BoldSpansWhole(t[n..])
    else BoldSpansWhole(t[1..])
  }

  // ------------------------------------------------------------ running in pieces

  lemma {:induction false} NestSplit(x: string, c: char, y: string, st: seq<Tag>)
    requires c == '<' || c == '*'
    ensures Nest(x + [c] + y, st) == Bind(Nest(x, st), [c] + y)
    decreases |x|
  {
    hide HeadOf, TagText;
    if x == "" {
      assert x + [c] + y == [c] + y;
    } else {
      HeadSplit(x, c, y);
      HeadIsPrefix(x);
      var h := HeadOf(x);
      if !h.Plain? { TagShape(h); }
      var n := if h.Plain? then 1 else |TagText(h)|;
      assert (x + [c] + y)[n..] == x[n..] + [c] + y;
      match h
      case Plain => NestSplit(x[n..], c, y, st);
      case Open(t) => NestSplit(x[n..], c, y, [t] + st);
      case Close(t) =>
        if st != [] && st[0] == t {
          NestSplit(x[n..], c, y, st[1..]);
        }
    }
  }

  lemma NestTag(h: Head, rest: string, st: seq<Tag>)
    requires !h.Plain?
    ensures h.Open? ==> Nest(TagText(h) + rest, st) == Nest(rest, [h.tag] + st)
    ensures h.Close? && st != [] && st[0] == h.tag ==> Nest(TagText(h) + rest, st) == Nest(rest, st[1..])
    ensures h.Close? && !(st != [] && st[0] == h.tag) ==> Nest(TagText(h) + rest, st) == None
  {
    HeadOfTag(h, rest);
    assert (TagText(h) + rest)[|TagText(h)|..] == rest;
  }

  lemma NestPlainStep(s: string, st: seq<Tag>)
    requires s != "" && s[0] != '<'
    ensures Nest(s, st) == Nest(s[1..], st)
  {
    hide HeadOf, TagText;
    HeadPlain(s);
  }

  lemma {:induction false} NestPlain(x: string, rest: string, st: seq<Tag>)
    requires '<' !in x
    ensures Nest(x + rest, st) == Nest(rest, st)
  {
    hide Nest;
    if x == "" {
      assert x + rest == rest;
    } else {
      NestPlainStep(x + rest, st);
      assert (x + rest)[1..] == x[1..] + rest;
      NestPlain(x[1..], rest, st);
    }
  }

  lemma NestStars(x: string, y: string, st: seq<Tag>)
    ensures Nest(x + "**" + y, st) == Bind(Nest(x, st), y)
  {
    hide Nest;
    assert x + "**" + y == x + ['*'] + (['*'] + y);
    NestSplit(x, '*', ['*'] + y, st);
    assert ['*'] + (['*'] + y) == "**" + y;
    if Nest(x, st).Some? {
      NestPlain("**", y, Nest(x, st).value);
    }
  }

  /** What lies below in the stack does not matter to a run that never reaches it. */
  lemma {:induction false} NestLift(w: string, q: seq<Tag>, base: seq<Tag>)
    requires Nest(w, q).Some?
    ensures Nest(w, q + base) == Some(Nest(w, q).value + base)
    decreases |w|
  {
    hide HeadOf, TagText;
    if w != "" {
      var h := HeadOf(w);
      if !h.Plain? { TagShape(h); HeadIsPrefix(w); }
      match h
      case Plain => NestLift(w[1..], q, base);
      case Open(t) =>
        NestLift(w[|TagText(h)|..], [t] + q, base);
        assert [t] + q + base == [t] + (q + base);
      case Close(t) =>
        NestLift(w[|TagText(h)|..], q[1..], base);
        assert (q + base)[1..] == q[1..] + base;
    }
  }

  lemma CodeTaggedSuffix(t: string, n: nat)
    requires CodeTagged(t) && n <= |t|
    ensures CodeTagged(t[n..])
  {
    hide HeadOf;
    forall i | 0 <= i < |t[n..]| && t[n..][i] == '<'
      ensures HeadOf(t[n..][i..]) == Open(Code) || HeadOf(t[n..][i..]) == Close(Code)
    {
      assert t[n..][i..] == t[n + i..];
    }
  }

  /** Code tags alone cannot close a bold tag that is open below them. */
  lemma {:induction false} NestFloor(w: string, q: seq<Tag>, base: seq<Tag>)
    requires CodeTagged(w) && base != [] && base[0] == Strong
    requires Nest(w, q).None?
    ensures Nest(w, q + base).None?
    decreases |w|
  {
    hide HeadOf, TagText;
    if w != "" {
      var h := HeadOf(w);
      assert w[0..] == w;
      if h.Plain? {
        CodeTaggedSuffix(w, 1);
        NestFloor(w[1..], q, base);
      } else {
        TagShape(h);
        HeadIsPrefix(w);
        var n := |TagText(h)|;
        CodeTaggedSuffix(w, n);
        assert w[0] == '<';
        if h.Open? {
          NestFloor(w[n..], [h.tag] + q, base);
          assert [h.tag] + q + base == [h.tag] + (q + base);
        } else if q != [] && q[0] == h.tag {
          NestFloor(w[n..], q[1..], base);
          assert (q + base)[1..] == q[1..] + base;
        } else if q == [] {
          assert q + base == base;
        }
      }
    }
  }

  predicate OnlyCode(st: seq<Tag>) { forall i :: 0 <= i < |st| ==> st[i] == Code }

  /** A run over code tags leaves only code tags on top of what was there. */
  lemma {:induction false} NestOnlyCode(w: string, q: seq<Tag>)
    requires CodeTagged(w) && Nest(w, q).Some? && OnlyCode(q)
    ensures OnlyCode(Nest(w, q).value)
    decreases |w|
  {
    hide HeadOf, TagText;
    if w != "" {
      var h := HeadOf(w);
      assert w[0..] == w;
      if h.Plain? {
        CodeTaggedSuffix(w, 1);
        NestOnlyCode(w[1..], q);
      } else {
        TagShape(h);
        HeadIsPrefix(w);
        CodeTaggedSuffix(w, |TagText(h)|);
        assert w[0] == '<';
        if h.Open? {
          NestOnlyCode(w[|TagText(h)|..], [h.tag] + q);
        } else {
          NestOnlyCode(w[|TagText(h)|..], q[1..]);
        }
      }
    }
  }

  // --------------------------------------------------------- texts with code tags

  /** Cutting just before a star cuts no tag. */
  lemma CodeTaggedCut(w: string, y: string)
    requires CodeTagged(w + ['*'] + y)
    ensures CodeTagged(w)
  {
    hide HeadOf;
    var t := w + ['*'] + y;
    forall i | 0 <= i < |w| && w[i] == '<'
      ensures HeadOf(w[i..]) == Open(Code) || HeadOf(w[i..]) == Close(Code)
    {
      assert t[i..] == w[i..] + ['*'] + y;
      HeadSplit(w[i..], '*', y);
    }
  }

  lemma CodeTaggedConcat(a: string, b: string)
    requires CodeTagged(a) && CodeTagged(b)
    ensures CodeTagged(a + b)
  {
    hide HeadOf, TagText;
    forall i | 0 <= i < |a + b| && (a + b)[i] == '<'
      ensures HeadOf((a + b)[i..]) == Open(Code) || HeadOf((a + b)[i..]) == Close(Code)
    {
      if i < |a| {
        var h := HeadOf(a[i..]);
        HeadIsPrefix(a[i..]);
        assert (a + b)[i..] == TagText(h) + (a[i..][|TagText(h)|..] + b);
        HeadOfTag(h, a[i..][|TagText(h)|..] + b);
      } else {
        assert (a + b)[i..] == b[i - |a|..];
      }
    }
  }

  lemma CodeTaggedTag(h: Head)
    requires !h.Plain? && h.tag == Code
    ensures CodeTagged(TagText(h))
  {
    hide HeadOf, TagText;
    TagShape(h);
    var g := TagText(h);
    forall i | 0 <= i < |g| && g[i] == '<' ensures HeadOf(g[i..]) == h {
      if i > 0 {
        assert false;
      } else {
        HeadOfTag(h, "");
        assert g[0..] == g + "";
      }
    }
  }

  lemma CodeSpanNests(body: string, x: string)
    requires '<' !in body
    ensures Nest(OpenTag(Code) + body + CloseTag(Code) + x, []) == Nest(x, [])
  {
    hide Nest, OpenTag, CloseTag;
    var after := body + (TagText(Close(Code)) + x);
    assert OpenTag(Code) + body + CloseTag(Code) + x == TagText(Open(Code)) + after;
    NestTag(Open(Code), after, []);
    assert [Code] + [] == [Code] && [Code][1..] == [];
    NestPlain(body, TagText(Close(Code)) + x, [Code]);
    NestTag(Close(Code), x, [Code]);
  }

  lemma CodeSpanTagged(body: string, x: string)
    requires '<' !in body && CodeTagged(x)
    ensures CodeTagged(OpenTag(Code) + body + CloseTag(Code) + x)
  {
    hide OpenTag, CloseTag, HeadOf;
    CodeTaggedTag(Open(Code));
    CodeTaggedTag(Close(Code));
    CodeTaggedConcat(OpenTag(Code), body);
    CodeTaggedConcat(OpenTag(Code) + body, CloseTag(Code));
    CodeTaggedConcat(OpenTag(Code) + body + CloseTag(Code), x);
  }

  lemma CodeTaggedPlain(x: string)
    requires '<' !in x
    ensures CodeTagged(x)
  {}

  lemma NestNothing(st: seq<Tag>)
    ensures Nest("", st) == Some(st)
  {}

  /** The code pass writes balanced code tags and nothing else. */
  lemma {:induction false} CodePassNests(e: string)
    requires '<' !in e
    ensures CodeTagged(CodePass(e)) && WellNested(CodePass(e))
    decreases |e|
  {
    hide Nest, HeadOf, OpenTag, CloseTag, CodeMatch, CodeTagged;
    if e == "" {
      NestNothing([]);
      CodeTaggedPlain(e);
    } else {
      var n := CodeMatch(e);
      if n > 0 {
        CodePassNests(e[n..]);
        CodeSpanTagged(e[1..n - 1], CodePass(e[n..]));
        CodeSpanNests(e[1..n - 1], CodePass(e[n..]));
      } else {
        CodePassNests(e[1..]);
        CodeTaggedPlain([e[0]]);
        CodeTaggedConcat([e[0]], CodePass(e[1..]));
        NestPlain([e[0]], CodePass(e[1..]), []);
      }
    }
  }

  // ------------------------------------------------------------------ the bold pass

  lemma {:induction false} BoldSkip(g: string, u: string)
    requires '*' !in g
    ensures BoldPass(g + u) == g + BoldPass(u)
    ensures BoldSpansWhole(g + u) == BoldSpansWhole(u)
  {
    hide Nest, BoldMatch, OpenTag, CloseTag;
    if g == "" {
      assert g + u == u;
    } else {
      assert (g + u)[0] == g[0] && (g + u)[1..] == g[1..] + u;
      BoldSkip(g[1..], u);
    }
  }

  /** A tagged span survives exactly when its content is balanced on its own. */
  lemma TaggedSpanNests(w: string, rest: string, st: seq<Tag>)
    requires CodeTagged(w)
    ensures Nest(OpenTag(Strong) + w + CloseTag(Strong) + rest, st) == if WellNested(w) then Nest(rest, st) else None
  {
    hide Nest, HeadOf, OpenTag, CloseTag;
    var close := TagText(Close(Strong));
    TagShape(Close(Strong));
    var after := close + rest;
    assert OpenTag(Strong) + w + CloseTag(Strong) + rest == TagText(Open(Strong)) + (w + after);
    NestTag(Open(Strong), w + after, st);
    assert after == ['<'] + (close[1..] + rest);
    assert w + after == w + ['<'] + (close[1..] + rest);
    var base := [Strong] + st;
    NestSplit(w, '<', close[1..] + rest, base);
    assert [] + base == base;
    if Nest(w, []).None? {
      NestFloor(w, [], base);
    } else {
      var v := Nest(w, []).value;
      NestLift(w, [], base);
      NestOnlyCode(w, []);
      NestTag(Close(Strong), rest, v + base);
      assert base[1..] == st;
      if v != [] {
        assert (v + base)[0] == v[0] == Code;
      } else {
        assert v + base == base;
      }
    }
  }

  lemma StarredSpanNests(w: string, rest: string, st: seq<Tag>)
    requires WellNested(w)
    ensures Nest("**" + (w + "**" + rest), st) == Nest(rest, st)
  {
    hide Nest;
    NestPlain("**", w + "**" + rest, st);
    NestStars(w, rest, st);
    NestLift(w, [], st);
    assert [] + st == st;
  }

  lemma BoldStep(t: string)
    requires BoldMatch(t) > 0
    ensures var n := BoldMatch(t);
      && BoldPass(t) == OpenTag(Strong) + t[2..n - 2] + CloseTag(Strong) + BoldPass(t[n..])
      && BoldSpansWhole(t) == (WellNested(t[2..n - 2]) && BoldSpansWhole(t[n..]))
  {
    hide BoldMatch, Nest, OpenTag, CloseTag;
  }

  lemma BoldContentTagged(t: string)
    requires CodeTagged(t) && BoldMatch(t) > 0
    ensures CodeTagged(t[2..BoldMatch(t) - 2])
  {
    hide BoldMatch, CodeTagged;
    var n := BoldMatch(t);
    CodeTaggedSuffix(t, 2);
    assert t[n - 2] == t[n - 2..n][0] == '*';
    assert t[2..] == t[2..n - 2] + ['*'] + t[n - 1..];
    CodeTaggedCut(t[2..n - 2], t[n - 1..]);
  }

  lemma BoldSpanNests(t: string, st: seq<Tag>)
    requires CodeTagged(t) && BoldMatch(t) > 0
    requires var rest := t[BoldMatch(t)..];
      Nest(BoldPass(rest), st) == if BoldSpansWhole(rest) then Nest(rest, st) else None
    ensures Nest(BoldPass(t), st) == if BoldSpansWhole(t) then Nest(t, st) else None
  {
    hide *;
    var n := BoldMatch(t);
    var w, rest := t[2..n - 2], t[n..];
    BoldStep(t);
    BoldContentTagged(t);
    StarSpan(t, "");
    assert "" + t == t && "" + "**" + (w + "**" + rest) == "**" + (w + "**" + rest);
    TaggedSpanNests(w, BoldPass(rest), st);
    if WellNested(w) {
      StarredSpanNests(w, rest, st);
    }
  }

  /** The bold pass leaves the nesting of a text as it was, or breaks it for good. */
  lemma {:induction false} BoldPassNests(t: string, st: seq<Tag>)
    requires CodeTagged(t)
    ensures Nest(BoldPass(t), st) == if BoldSpansWhole(t) then Nest(t, st) else None
    decreases |t|
  {
    hide Nest, HeadOf, TagText, BoldMatch, OpenTag, CloseTag;
    if t != "" {
      assert t[0..] == t;
      if BoldMatch(t) > 0 {
        var rest := t[BoldMatch(t)..];
        CodeTaggedSuffix(t, BoldMatch(t));
        BoldPassNests(rest, st);
        BoldSpanNests(t, st);
      } else if t[0] == '<' {
        var h := HeadOf(t);
        HeadIsPrefix(t);
        TagShape(h);
        var u := t[|TagText(h)|..];
        assert t == TagText(h) + u;
        BoldSkip(TagText(h), u);
        CodeTaggedSuffix(t, |TagText(h)|);
        NestTag(h, u, st);
        NestTag(h, BoldPass(u), st);
        if h.Open? {
          BoldPassNests(u, [h.tag] + st);
        } else if st != [] {
          BoldPassNests(u, st[1..]);
        }
      } else {
        NestPlainStep(t, st);
        NestPlainStep(BoldPass(t), st);
        CodeTaggedSuffix(t, 1);
        BoldPassNests(t[1..], st);
      }
    }
  }

  /** Inline markup is well nested exactly when no bold span cuts a code span. */
  lemma InlineNestsIff(text: string)
    ensures WellNested(InlineMarkup(text)) <==> BoldSpansWhole(CodePass(Escape(text)))
  {
    hide Nest, HeadOf;
    EscapeLeavesNoMarkup(text);
    CodePassNests(Escape(text));
    BoldPassNests(CodePass(Escape(text)), []);
  }

  // --------------------------------------------- a sufficient condition on the source

  /** No code span that the code pass will match holds a star. */
  predicate NoStarInCode(e: string)
    decreases |e|
  {
    e == "" ||
    var n := CodeMatch(e);
    if n > 0 then '*' !in e[1..n - 1] && NoStarInCode(e[n..]) else NoStarInCode(e[1..])
  }

  lemma CodeSpanShape(e: string)
    requires CodeMatch(e) > 0 && NoStarInCode(e)
    ensures var n := CodeMatch(e);
      CodePass(e) == OpenTag(Code) + e[1..n - 1] + CloseTag(Code) + CodePass(e[n..])
    ensures '*' !in OpenTag(Code) + e[1..CodeMatch(e) - 1] + CloseTag(Code)
    ensures CodePass(e)[0] == '<'
  {
    hide CodeMatch;
    TagShape(Open(Code));
    TagShape(Close(Code));
  }

  /** Stars at the head of the coded text are stars at the head of the source. */
  lemma DropStar(e: string)
    requires NoStarInCode(e) && CodePass(e) != "" && CodePass(e)[0] == '*'
    ensures e != "" && CodePass(e)[1..] == CodePass(e[1..]) && NoStarInCode(e[1..])
  {
    hide CodeMatch;
    if CodeMatch(e) > 0 {
      CodeSpanShape(e);
    }
  }

  lemma DropStars(e: string)
    requires NoStarInCode(e) && "**" <= CodePass(e)
    ensures |e| >= 2 && CodePass(e)[2..] == CodePass(e[2..]) && NoStarInCode(e[2..])
  {
    hide CodeMatch, NoStarInCode, CodePass;
    var t := CodePass(e);
    assert t[0] == '*' && t[1] == '*';
    DropStar(e);
    DropStar(e[1..]);
    assert t[2..] == t[1..][1..] && e[2..] == e[1..][1..];
  }

  /** Up to its first star the coded text is balanced, and the rest is coded text again. */
  lemma {:induction false} UpToStar(e: string) returns (e': string)
    requires '<' !in e && NoStarInCode(e)
    ensures var t := CodePass(e); var m := Until(t, '*');
      WellNested(t[..m]) && t[m..] == CodePass(e') && NoStarInCode(e')
    ensures '<' !in e' && |e'| <= |e|
    decreases |e|
  {
    hide Nest, CodeMatch, OpenTag, CloseTag;
    var t := CodePass(e);
    if e == "" || (CodeMatch(e) == 0 && e[0] == '*') {
      e' := e;
      NestNothing([]);
      assert t[..0] == "" && t[0..] == t;
    } else if CodeMatch(e) > 0 {
      var body, rest := e[1..CodeMatch(e) - 1], e[CodeMatch(e)..];
      CodeSpanShape(e);
      e' := UpToStar(rest);
      var x := CodePass(rest);
      UntilPast(OpenTag(Code) + body + CloseTag(Code), x, '*');
      CodeSpanNests(body, x[..Until(x, '*')]);
    } else {
      e' := UpToStar(e[1..]);
      var x := CodePass(e[1..]);
      UntilPast([e[0]], x, '*');
      NestPlain([e[0]], x[..Until(x, '*')], []);
    }
  }

  /** A bold span outside code: its content is balanced, what follows is coded text again. */
  lemma BoldAmongCode(e: string) returns (e': string)
    requires '<' !in e && NoStarInCode(e) && BoldMatch(CodePass(e)) > 0
    ensures var t := CodePass(e); var n := BoldMatch(t);
      WellNested(t[2..n - 2]) && t[n..] == CodePass(e') && NoStarInCode(e')
    ensures '<' !in e' && |e'| < |e|
  {
    hide Nest, CodeMatch, BoldMatch, CodePass, NoStarInCode;
    var t := CodePass(e);
    var n := BoldMatch(t);
    DropStars(e);
    var u := t[2..];
    var e2 := UpToStar(e[2..]);
    assert u[..n - 4] == t[2..n - 2] && u[n - 4..] == t[n - 2..];
    assert t[n - 2] == t[n - 2..n][0] == '*';
    UntilIs(u, '*', n - 4);
    assert t[n - 2..][..2] == t[n - 2..n];
    DropStars(e2);
    assert t[n..] == t[n - 2..][2..];
    e' := e2[2..];
  }

  lemma {:induction false} NoStarSuffices(e: string)
    requires '<' !in e && NoStarInCode(e)
    ensures BoldSpansWhole(CodePass(e))
    decreases |e|
  {
    hide Nest, CodeMatch, BoldMatch, OpenTag, CloseTag;
    if e != "" {
      if CodeMatch(e) > 0 {
        CodeSpanShape(e);
        BoldSkip(OpenTag(Code) + e[1..CodeMatch(e) - 1] + CloseTag(Code), CodePass(e[CodeMatch(e)..]));
        NoStarSuffices(e[CodeMatch(e)..]);
      } else if BoldMatch(CodePass(e)) > 0 {
        var e' := BoldAmongCode(e);
        NoStarSuffices(e');
      } else {
        NoStarSuffices(e[1..]);
      }
    }
  }

  /** Text whose code spans hold no star is rendered well nested. */
  lemma InlineNests(text: string)
    requires NoStarInCode(Escape(text))
    ensures WellNested(InlineMarkup(text))
  {
    EscapeLeavesNoMarkup(text);
    NoStarSuffices(Escape(text));
    InlineNestsIff(text);
  }

  predicate Bland(s: string) { forall c :: c in s ==> c != '`' && c != '*' && !IsSpecial(c) }

  lemma {:induction false} CodePassNone(s: string)
    requires '`' !in s
    ensures CodePass(s) == s
  {
    if s != "" {
      CodePassNone(s[1..]);
    }
  }

  lemma CodePassSpan(body: string, rest: string)
    requires body != "" && '`' !in body
    ensures CodePass(['`'] + body + ['`'] + rest) == OpenTag(Code) + body + CloseTag(Code) + CodePass(rest)
  {
    hide OpenTag, CloseTag;
    var e := ['`'] + body + ['`'] + rest;
    assert e[1..] == body + (['`'] + rest);
    UntilPast(body, ['`'] + rest, '`');
    assert CodeMatch(e) == |body| + 2;
    assert e[|body| + 2..] == rest && e[1..|body| + 1] == body;
  }

  lemma BoldMatchSpan(w: string, rest: string)
    requires w != "" && '*' !in w
    ensures BoldMatch("**" + w + "**" + rest) == |w| + 4
  {
    var t := "**" + w + "**" + rest;
    assert t[2..] == w + ("**" + rest);
    UntilPast(w, "**" + rest, '*');
    assert t[|w| + 2..] == "**" + rest;
  }

  lemma LoneClose(b: string, c: string)
    requires Bland(b) && Bland(c)
    ensures !WellNested(b + CloseTag(Code) + c)
  {
    hide Nest, CloseTag;
    assert b + CloseTag(Code) + c == b + (TagText(Close(Code)) + c);
    NestPlain(b, TagText(Close(Code)) + c, []);
    NestTag(Close(Code), c, []);
  }

  lemma BoldCutsCode(x: string, b: string, c: string)
    requires '*' !in x && Bland(b) && Bland(c)
    ensures !BoldSpansWhole(x + ("**" + (b + CloseTag(Code) + c) + "**" + ""))
  {
    hide BoldSpansWhole, WellNested, BoldMatch, CloseTag;
    TagShape(Close(Code));
    var w := b + CloseTag(Code) + c;
    var t := "**" + w + "**" + "";
    BoldSkip(x, t);
    BoldMatchSpan(w, "");
    BoldStep(t);
    assert t[2..|w| + 2] == w;
    LoneClose(b, c);
  }

  lemma Reorder(open: string, a: string, star: string, b: string, close: string, c: string)
    ensures open + (a + star + b) + close + (c + star) == (open + a) + (star + (b + close + c) + star + "")
  {}

  lemma CutCodePass(a: string, b: string, c: string)
    requires Bland(a) && Bland(b) && Bland(c)
    ensures CodePass(['`'] + (a + "**" + b) + ['`'] + (c + "**"))
         == (OpenTag(Code) + a) + ("**" + (b + CloseTag(Code) + c) + "**" + "")
  {
    hide CodePass, CloseTag, OpenTag;
    Reorder(OpenTag(Code), a, "**", b, CloseTag(Code), c);
    CodePassSpan(a + "**" + b, c + "**");
    CodePassNone(c + "**");
  }

  /** And it is not always so: here the bold span starts inside the code span and ends outside. */
  lemma InlineMisnests(a: string, b: string, c: string)
    requires Bland(a) && Bland(b) && Bland(c)
    ensures !WellNested(InlineMarkup(['`'] + (a + "**" + b) + ['`'] + (c + "**")))
  {
    hide Nest, CodePass, BoldSpansWhole, CloseTag, OpenTag, InlineMarkup, Escape;
    var text := ['`'] + (a + "**" + b) + ['`'] + (c + "**");
    EscapeNothing(text);
    CutCodePass(a, b, c);
    TagShape(Open(Code));
    BoldCutsCode(OpenTag(Code) + a, b, c);
    InlineNestsIff(text);
  }
}
