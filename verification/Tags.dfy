/**
 Finding a tag in rendered text. A text is sealed against a tag when all its own tags are complete
 and different from it; then the first occurrence of the tag after the text is where it was put.
 */
module Tags {
  import opened Text
  import opened Html
  import opened Inline
  import opened Nesting

  predicate IsTag(g: string) {
    && |g| >= 2 && g[0] == '<' && '<' !in g[1..]
    && g[|g| - 1] == '>' && '>' !in g[..|g| - 1]
  }

  /** The text from `i` to the next `>`. */
  function TagAt(x: string, i: nat): string
    requires i <= |x|
  {
    var n := Until(x[i..], '>');
    if i + n < |x| then x[i..i + n + 1] else x[i..]
  }

  ghost predicate Sealed(x: string, g: string) {
    forall i :: 0 <= i < |x| && x[i] == '<' ==> IsTag(TagAt(x, i)) && TagAt(x, i) != g
  }

  lemma SliceShift(s: string, n: nat, k: nat)
    requires s != ""
    ensures n + 1 + k <= |s| ==> s[n + 1..n + 1 + k] == s[1..][n..n + k]
  {
    if n + 1 + k <= |s| {
      var a, b := s[n + 1..n + 1 + k], s[1..][n..n + k];
      forall i | 0 <= i < k ensures a[i] == b[i] {
        assert a[i] == s[n + 1 + i] && b[i] == s[1..][n + i];
      }
      assert a == b;
    }
  }

  /** Index of the first occurrence of `g`, or the length of `s`. */
  function Find(s: string, g: string): (n: nat)
    requires g != ""
    ensures n <= |s| && (n < |s| ==> n + |g| <= |s| && s[n..n + |g|] == g)
  {
    if s == "" then 0 else if g <= s then 0 else
      var n := Find(s[1..], g);
      SliceShift(s, n, |g|);
      n + 1
  }

  lemma TagAtHead(g: string, y: string)
    requires IsTag(g)
    ensures TagAt(g + y, 0) == g
  {
    assert (g + y)[0..] == g + y;
    assert (g + y)[..|g| - 1] == g[..|g| - 1];
    UntilIs(g + y, '>', |g| - 1);
  }

  lemma TagAtShift(x: string, y: string, i: nat)
    requires i <= |y|
    ensures TagAt(x + y, |x| + i) == TagAt(y, i)
  {
    assert (x + y)[|x| + i..] == y[i..];
    var n := Until(y[i..], '>');
    if i + n < |y| {
      assert (x + y)[|x| + i..|x| + i + n + 1] == y[i..i + n + 1];
    }
  }

  lemma TagAtIs(x: string, i: nat)
    requires i <= |x|
    ensures i + |TagAt(x, i)| <= |x| && x[i..] == TagAt(x, i) + x[i + |TagAt(x, i)|..]
  {}

  lemma TagAtFrom(x: string, i: nat)
    requires i <= |x|
    ensures TagAt(x, i) == TagAt(x[i..], 0)
  {
    assert x[i..][0..] == x[i..];
    assert x[..i] + x[i..] == x;
    TagAtShift(x[..i], x[i..], 0);
  }

  /** A complete tag stays the same whatever follows the text. */
  lemma TagAtExtend(x: string, y: string, i: nat)
    requires i < |x| && IsTag(TagAt(x, i))
    ensures TagAt(x + y, i) == TagAt(x, i)
  {
    hide IsTag;
    var g := TagAt(x, i);
    TagAtIs(x, i);
    var rest := x[i + |g|..] + y;
    assert (x + y)[i..] == g + rest;
    hide TagAt;
    TagAtHead(g, rest);
    TagAtFrom(x + y, i);
  }

  lemma SealedConcat(x: string, y: string, g: string)
    requires Sealed(x, g) && Sealed(y, g)
    ensures Sealed(x + y, g)
  {
    hide TagAt, IsTag;
    forall i | 0 <= i < |x + y| && (x + y)[i] == '<'
      ensures IsTag(TagAt(x + y, i)) && TagAt(x + y, i) != g
    {
      if i < |x| {
        TagAtExtend(x, y, i);
      } else {
        assert (x + y)[i] == y[i - |x|];
        TagAtShift(x, y, i - |x|);
      }
    }
  }

  lemma SealedPlain(x: string, g: string)
    requires '<' !in x
    ensures Sealed(x, g)
  {}

  lemma SealedTag(t: string, g: string)
    requires IsTag(t) && t != g
    ensures Sealed(t, g)
  {
    hide TagAt;
    TagAtHead(t, "");
    assert t + "" == t;
    forall i | 0 < i < |t| ensures t[i] != '<' {
      assert t[i] == t[1..][i - 1];
    }
  }

  lemma NotBefore(x: string, g: string, y: string, i: nat)
    requires IsTag(g) && Sealed(x, g) && i < |x|
    ensures !(g <= (x + y)[i..])
  {
    hide TagAt;
    var s := (x + y)[i..];
    if g <= s {
      assert s == g + s[|g|..];
      TagAtHead(g, s[|g|..]);
      assert x[i] == s[0] == g[0];
      assert (x + y)[..i] + s == x + y;
      TagAtShift((x + y)[..i], s, 0);
      TagAtExtend(x, y, i);
      assert false;
    }
  }

  lemma {:induction false} FindIs(s: string, g: string, n: nat)
    requires g != "" && n <= |s| && g <= s[n..]
    requires forall i :: 0 <= i < n ==> !(g <= s[i..])
    ensures Find(s, g) == n
  {
    assert s[0..] == s;
    if n > 0 {
      forall i | 0 <= i < n - 1 ensures !(g <= s[1..][i..]) {
        assert s[1..][i..] == s[i + 1..];
      }
      assert s[1..][n - 1..] == s[n..];
      FindIs(s[1..], g, n - 1);
    }
  }

  lemma {:induction false} FindNone(s: string, g: string)
    requires g != "" && forall i :: 0 <= i < |s| ==> !(g <= s[i..])
    ensures Find(s, g) == |s|
  {
    if s != "" {
      assert s[0..] == s;
      forall i | 0 <= i < |s[1..]| ensures !(g <= s[1..][i..]) {
        assert s[1..][i..] == s[i + 1..];
      }
      FindNone(s[1..], g);
    }
  }

  lemma TagIsNonempty(g: string)
    requires IsTag(g)
    ensures g != ""
  {}

  /** The closing tag is found where the text that is sealed against it ends. */
  lemma FindAfter(x: string, g: string, y: string)
    requires IsTag(g) && Sealed(x, g)
    ensures Find(x + (g + y), g) == |x|
  {
    hide IsTag, Sealed, Find;
    var s := x + (g + y);
    assert s[|x|..] == g + y;
    forall i | 0 <= i < |x| ensures !(g <= s[i..]) {
      NotBefore(x, g, g + y, i);
    }
    TagIsNonempty(g);
    FindIs(s, g, |x|);
  }

  lemma FindNowhere(x: string, g: string)
    requires IsTag(g) && Sealed(x, g)
    ensures Find(x, g) == |x|
  {
    forall i | 0 <= i < |x| ensures !(g <= x[i..]) {
      NotBefore(x, g, "", i);
      assert x + "" == x;
    }
    FindNone(x, g);
  }

  // ----------------------------------------------------------------- inline markup

  /** A tag that is none of the four inline tags. */
  predicate IsBlockTag(g: string) {
    IsTag(g) && |g| >= 4 && g[1] == '/' && g[2] != 'c' && g[2] != 's'
  }

  ghost predicate InlineTagged(s: string) {
    forall i :: 0 <= i < |s| && s[i] == '<' ==> !HeadOf(s[i..]).Plain?
  }

  lemma InlineTaggedConcat(a: string, b: string)
    requires InlineTagged(a) && InlineTagged(b)
    ensures InlineTagged(a + b)
  {
    hide HeadOf, TagText;
    forall i | 0 <= i < |a + b| && (a + b)[i] == '<' ensures !HeadOf((a + b)[i..]).Plain? {
      if i < |a| {
        var h := HeadOf(a[i..]);
        HeadIsPrefix(a[i..]);
        assert (a + b)[i..] == TagText(h) + (a[i..][|TagText(h)|..] + b);
        HeadOfTag(h, a[i..][|TagText(h)|..] + b);
      } else {
        assert (a + b)[i..] == b[i - |a|..];
      }
    }
  }

  lemma InlineTaggedTag(h: Head)
    requires !h.Plain?
    ensures InlineTagged(TagText(h))
  {
    hide HeadOf, TagText;
    TagShape(h);
    var g := TagText(h);
    forall i | 0 <= i < |g| && g[i] == '<' ensures HeadOf(g[i..]) == h {
      if i > 0 {
        assert false;
      } else {
        HeadOfTag(h, "");
        assert g[0..] == g + "";
      }
    }
  }

  lemma {:induction false} BoldPassTagged(t: string)
    requires CodeTagged(t)
    ensures InlineTagged(BoldPass(t))
    decreases |t|
  {
    hide Nest, HeadOf, BoldMatch, OpenTag, CloseTag;
    if t != "" {
      assert t[0..] == t;
      if BoldMatch(t) > 0 {
        var n := BoldMatch(t);
        CodeTaggedSuffix(t, n);
        BoldPassTagged(t[n..]);
        BoldContentTagged(t);
        InlineTaggedTag(Open(Strong));
        InlineTaggedTag(Close(Strong));
        InlineTaggedConcat(OpenTag(Strong), t[2..n - 2]);
        InlineTaggedConcat(OpenTag(Strong) + t[2..n - 2], CloseTag(Strong));
        InlineTaggedConcat(OpenTag(Strong) + t[2..n - 2] + CloseTag(Strong), BoldPass(t[n..]));
      } else if t[0] == '<' {
        var h := HeadOf(t);
        HeadIsPrefix(t);
        TagShape(h);
        var v := t[|TagText(h)|..];
        assert t == TagText(h) + v;
        BoldSkip(TagText(h), v);
        CodeTaggedSuffix(t, |TagText(h)|);
        BoldPassTagged(v);
        InlineTaggedTag(h);
        InlineTaggedConcat(TagText(h), BoldPass(v));
      } else {
        CodeTaggedSuffix(t, 1);
        BoldPassTagged(t[1..]);
        InlineTaggedConcat([t[0]], BoldPass(t[1..]));
      }
    }
  }

  lemma TagTextIsTag(h: Head)
    requires !h.Plain?
    ensures IsTag(TagText(h)) && !IsBlockTag(TagText(h))
  {
    TagShape(h);
  }

  /** Whatever the text, its markup holds no block tag: user text cannot end a block. */
  lemma InlineSealed(text: string, g: string)
    requires IsBlockTag(g)
    ensures Sealed(InlineMarkup(text), g)
  {
    hide HeadOf, TagText, TagAt, IsBlockTag, CodePass, BoldPass, Nest;
    EscapeLeavesNoMarkup(text);
    CodePassNests(Escape(text));
    BoldPassTagged(CodePass(Escape(text)));
    var x := InlineMarkup(text);
    forall i | 0 <= i < |x| && x[i] == '<' ensures IsTag(TagAt(x, i)) && TagAt(x, i) != g {
      var h := HeadOf(x[i..]);
      HeadIsPrefix(x[i..]);
      TagTextIsTag(h);
      assert x[i..] == TagText(h) + x[i..][|TagText(h)|..];
      TagAtHead(TagText(h), x[i..][|TagText(h)|..]);
      TagAtShift(x[..i], x[i..], 0);
      assert x[..i] + x[i..] == x;
    }
  }
}
