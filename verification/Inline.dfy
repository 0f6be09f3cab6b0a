/**
 `inline_markup`: escape the text, then rewrite `` `code` `` and `**bold**`, each with one
 left-to-right pass. The two regular expressions are written as scanners.
 */
module Inline {
  import opened Text
  import opened Html

  // ------------------------------------------------------------- the two passes

  datatype Tag = Code | Strong

  function OpenTag(t: Tag): string { if t == Code then "<code>" else "<strong>" }

  function CloseTag(t: Tag): string { if t == Code then "</code>" else "</strong>" }

  function Delimiter(t: Tag): string { if t == Code then "`" else "**" }

  /** Length of the match of `` `([^`]+)` `` at the head of `s`; 0 when there is none. */
  function CodeMatch(s: string): (n: nat)
    ensures n <= |s|
    ensures n > 0 ==> n >= 3 && s[0] == s[n - 1] == '`' && '`' !in s[1..n - 1]
  {
    if s == "" || s[0] != '`' then 0 else
      var n := Until(s[1..], '`');
      assert s[1..n + 1] == s[1..][..n];
      if n == 0 || n + 1 == |s| then 0 else n + 2
  }

  /** Length of the match of `\*\*([^*]+)\*\*` at the head of `s`; 0 when there is none. */
  function BoldMatch(s: string): (n: nat)
    ensures n <= |s|
    ensures n > 0 ==> n >= 5 && s[..2] == s[n - 2..n] == "**" && '*' !in s[2..n - 2]
  {
    if !("**" <= s) then 0 else
      var n := Until(s[2..], '*');
      assert s[2..n + 2] == s[2..][..n];
      if n == 0 || !("**" <= s[n + 2..]) then 0 else n + 4
  }

  function CodePass(s: string): string
    decreases |s|
  {
    if s == "" then "" else
      var n := CodeMatch(s);
      if n > 0 then OpenTag(Code) + s[1..n - 1] + CloseTag(Code) + CodePass(s[n..])
      else [s[0]] + CodePass(s[1..])
  }

  function BoldPass(s: string): string
    decreases |s|
  {
    if s == "" then "" else
      var n := BoldMatch(s);
      if n > 0 then OpenTag(Strong) + s[2..n - 2] + CloseTag(Strong) + BoldPass(s[n..])
      else [s[0]] + BoldPass(s[1..])
  }

  function InlineMarkup(text: string): string {
    BoldPass(CodePass(Escape(text)))
  }

  // ------------------------------------------------------- reading the tags back

  datatype Head = Open(tag: Tag) | Close(tag: Tag) | Plain

  /** The inline tag at the head of `s`, if any. */
  function HeadOf(s: string): Head {
    if "<code>" <= s then Open(Code) else if "</code>" <= s then Close(Code)
    else if "<strong>" <= s then Open(Strong) else if "</strong>" <= s then Close(Strong)
    else Plain
  }

  function TagText(h: Head): string
    requires !h.Plain?
  {
    if h.Open? then OpenTag(h.tag) else CloseTag(h.tag)
  }

  /** Put the delimiters back where the tags are. */
  function Untag(s: string): string
    decreases |s|
  {
    if s == "" then "" else
      var h := HeadOf(s);
      if h.Plain? then [s[0]] + Untag(s[1..])
      else Delimiter(h.tag) + Untag(s[|TagText(h)|..])
  }

  /** Undo `InlineMarkup`. */
  function Unmark(s: string): string { Unescape(Untag(s)) }

  lemma TagShape(h: Head)
    requires !h.Plain?
    ensures TagText(h)[0] == '<' && '<' !in TagText(h)[1..] && '*' !in TagText(h) && |TagText(h)| >= 6
    ensures TagText(h)[|TagText(h)| - 1] == '>' && '>' !in TagText(h)[..|TagText(h)| - 1]
  {}

  lemma HeadIsPrefix(s: string)
    ensures !HeadOf(s).Plain? ==> TagText(HeadOf(s)) <= s
  {}

  lemma HeadOfTag(h: Head, rest: string)
    requires !h.Plain?
    ensures HeadOf(TagText(h) + rest) == h
  {
    var s := TagText(h) + rest;
    assert s[1] == TagText(h)[1] && s[2] == TagText(h)[2];
  }

  /** A tag at the head of `x + [c] + y` lies inside `x` when `c` cannot continue a tag. */
  lemma HeadSplit(x: string, c: char, y: string)
    requires x != "" && (c == '<' || c == '*')
    ensures HeadOf(x + [c] + y) == HeadOf(x)
  {
    var s := x + [c] + y;
    assert s[|x|] == c;
    forall h: Head | !h.Plain? ensures TagText(h) <= s <==> TagText(h) <= x {
      TagShape(h);
      if TagText(h) <= s && |TagText(h)| > |x| {
        assert false;
      }
    }
    assert TagText(Open(Code)) == "<code>" && TagText(Close(Code)) == "</code>";
    assert TagText(Open(Strong)) == "<strong>" && TagText(Close(Strong)) == "</strong>";
  }

  lemma {:induction false} UntagSplit(x: string, c: char, y: string)
    requires c == '<' || c == '*'
    ensures Untag(x + [c] + y) == Untag(x) + Untag([c] + y)
    decreases |x|
  {
    hide HeadOf, TagText;
    if x == "" {
      assert x + [c] + y == [c] + y;
    } else {
      HeadSplit(x, c, y);
      HeadIsPrefix(x);
      if !HeadOf(x).Plain? { TagShape(HeadOf(x)); }
      var n := if HeadOf(x).Plain? then 1 else |TagText(HeadOf(x))|;
      assert (x + [c] + y)[n..] == x[n..] + [c] + y;
      UntagSplit(x[n..], c, y);
    }
  }

  lemma UntagTag(h: Head, rest: string)
    requires !h.Plain?
    ensures Untag(TagText(h) + rest) == Delimiter(h.tag) + Untag(rest)
  {
    HeadOfTag(h, rest);
    assert (TagText(h) + rest)[|TagText(h)|..] == rest;
  }

  lemma HeadPlain(s: string)
    requires s != "" && s[0] != '<'
    ensures HeadOf(s).Plain?
  {
    if !HeadOf(s).Plain? {
      TagShape(HeadOf(s));
      HeadIsPrefix(s);
    }
  }

  lemma UntagStep(s: string)
    requires s != "" && s[0] != '<'
    ensures Untag(s) == [s[0]] + Untag(s[1..])
  {
    hide HeadOf, TagText, Delimiter;
    HeadPlain(s);
  }

  lemma {:induction false} UntagPlain(x: string, rest: string)
    requires '<' !in x
    ensures Untag(x + rest) == x + Untag(rest)
  {
    hide Untag;
    if x == "" {
      assert x + rest == rest;
    } else {
      UntagStep(x + rest);
      assert (x + rest)[1..] == x[1..] + rest;
      UntagPlain(x[1..], rest);
      assert x + Untag(rest) == [x[0]] + (x[1..] + Untag(rest));
    }
  }

  lemma UntagSpan(t: Tag, body: string, rest: string)
    ensures Untag(OpenTag(t) + body + CloseTag(t) + rest) == Delimiter(t) + Untag(body) + Delimiter(t) + Untag(rest)
  {
    hide Untag, HeadOf, OpenTag, CloseTag, Delimiter;
    var close := CloseTag(t);
    TagShape(Close(t));
    assert OpenTag(t) + body + close + rest == TagText(Open(t)) + (body + close + rest);
    UntagTag(Open(t), body + close + rest);
    assert close + rest == ['<'] + (close[1..] + rest);
    assert body + close + rest == body + ['<'] + (close[1..] + rest);
    UntagSplit(body, '<', close[1..] + rest);
    UntagTag(Close(t), rest);
  }

  lemma UntagStars(x: string, y: string)
    ensures Untag(x + "**" + y) == Untag(x) + "**" + Untag(y)
  {
    hide Untag;
    assert x + "**" + y == x + ['*'] + (['*'] + y);
    UntagSplit(x, '*', ['*'] + y);
    assert ['*'] + (['*'] + y) == "**" + y;
    UntagPlain("**", y);
  }

  lemma UntagNothing(x: string)
    requires '<' !in x
    ensures Untag(x) == x
  {
    UntagPlain(x, "");
    assert x + "" == x;
  }

  lemma {:induction false} UntagCodePass(e: string)
    requires '<' !in e
    ensures Untag(CodePass(e)) == e
    decreases |e|
  {
    hide Untag, OpenTag, CloseTag, CodeMatch;
    if e == "" {
      UntagNothing(e);
    } else {
      var n := CodeMatch(e);
      if n > 0 {
        var body := e[1..n - 1];
        UntagSpan(Code, body, CodePass(e[n..]));
        UntagNothing(body);
        UntagCodePass(e[n..]);
        assert e == ['`'] + body + ['`'] + e[n..];
      } else {
        UntagPlain([e[0]], CodePass(e[1..]));
        UntagCodePass(e[1..]);
      }
    }
  }

  lemma UntagBoldSpan(x: string, body: string, rest: string)
    ensures Untag(x + (OpenTag(Strong) + body + CloseTag(Strong) + rest))
         == Untag(x) + "**" + Untag(body) + "**" + Untag(rest)
  {
    hide Untag, HeadOf, OpenTag, CloseTag;
    var open := OpenTag(Strong);
    var tail := body + CloseTag(Strong) + rest;
    TagShape(Open(Strong));
    assert open + body + CloseTag(Strong) + rest == open + tail;
    assert open + tail == ['<'] + (open[1..] + tail);
    assert x + (open + tail) == x + ['<'] + (open[1..] + tail);
    UntagSplit(x, '<', open[1..] + tail);
    UntagSpan(Strong, body, rest);
  }

  lemma StarSpan(t: string, x: string)
    requires BoldMatch(t) > 0
    ensures var n := BoldMatch(t); x + t == x + "**" + (t[2..n - 2] + "**" + t[n..])
  {
    hide BoldMatch;
    var n := BoldMatch(t);
    assert t == t[..2] + t[2..n - 2] + t[n - 2..n] + t[n..];
    assert t == "**" + (t[2..n - 2] + "**" + t[n..]);
  }

  lemma UntagBoldHead(t: string, x: string)
    requires BoldMatch(t) > 0
    requires Untag(BoldPass(t[BoldMatch(t)..])) == Untag(t[BoldMatch(t)..])
    ensures Untag(x + BoldPass(t)) == Untag(x + t)
  {
    hide Untag, OpenTag, CloseTag, BoldMatch;
    var n := BoldMatch(t);
    var body, rest := t[2..n - 2], t[n..];
    UntagBoldSpan(x, body, BoldPass(rest));
    StarSpan(t, x);
    UntagStars(x, body + "**" + rest);
    UntagStars(body, rest);
  }

  /** The bold pass inserts its tags between whole code tags, so both come back in one sweep. */
  lemma {:induction false} UntagBoldPass(t: string, x: string)
    ensures Untag(x + BoldPass(t)) == Untag(x + t)
    decreases |t|
  {
    hide Untag, HeadOf, OpenTag, CloseTag, BoldMatch;
    if t != "" {
      if BoldMatch(t) > 0 {
        var rest := t[BoldMatch(t)..];
        UntagBoldPass(rest, "");
        assert "" + BoldPass(rest) == BoldPass(rest) && "" + rest == rest;
        UntagBoldHead(t, x);
      } else {
        assert x + BoldPass(t) == (x + [t[0]]) + BoldPass(t[1..]);
        assert x + t == (x + [t[0]]) + t[1..];
        UntagBoldPass(t[1..], x + [t[0]]);
      }
    }
  }

  /** `inline_markup` loses nothing: on every string, the tags and entities lead back to it. */
  lemma InlineRoundTrip(text: string)
    ensures Unmark(InlineMarkup(text)) == text
  {
    EscapeLeavesNoMarkup(text);
    UntagCodePass(Escape(text));
    UntagBoldPass(CodePass(Escape(text)), "");
    assert "" + InlineMarkup(text) == InlineMarkup(text);
    assert "" + CodePass(Escape(text)) == CodePass(Escape(text));
    UnescapeEscape(text);
  }

  lemma InlineInjective(a: string, b: string)
    requires InlineMarkup(a) == InlineMarkup(b)
    ensures a == b
  {
    InlineRoundTrip(a);
    InlineRoundTrip(b);
  }
}
