/** `html.escape`, its closed form, and the decoder that undoes it. */
module Html {
  import opened Text

  /** `str.replace` of one character by a string. */
  function Replace(s: string, c: char, to: string): string {
    if s == "" then "" else (if s[0] == c then to else [s[0]]) + Replace(s[1..], c, to)
  }

  /** Five replacements one after the other, the ampersand first. */
  function Escape(s: string): string {
    var s := Replace(s, '&', "&amp;");
    var s := Replace(s, '<', "&lt;");
    var s := Replace(s, '>', "&gt;");
    var s := Replace(s, '"', "&quot;");
    Replace(s, '\'', "&#x27;")
  }

  function Entity(c: char): (e: string)
    ensures e != "" && '<' !in e && '>' !in e && '"' !in e && '\'' !in e
  {
    match c
    case '&' => "&amp;"
    case '<' => "&lt;"
    case '>' => "&gt;"
    case '"' => "&quot;"
    case '\'' => "&#x27;"
    case _ => [c]
  }

  /** What the five passes amount to: each character on its own. */
  function EntityMap(s: string): string {
    if s == "" then "" else Entity(s[0]) + EntityMap(s[1..])
  }

  function Unescape(s: string): string {
    if s == "" then ""
    else if "&amp;" <= s then "&" + Unescape(s[5..])
    else if "&lt;" <= s then "<" + Unescape(s[4..])
    else if "&gt;" <= s then ">" + Unescape(s[4..])
    else if "&quot;" <= s then "\"" + Unescape(s[6..])
    else if "&#x27;" <= s then "'" + Unescape(s[6..])
    else [s[0]] + Unescape(s[1..])
  }

  lemma {:induction false} ReplaceConcat(a: string, b: string, c: char, to: string)
    ensures Replace(a + b, c, to) == Replace(a, c, to) + Replace(b, c, to)
  {
    if a == "" {
      assert a + b == b;
    } else {
      ReplaceConcat(a[1..], b, c, to);
      Assoc(if a[0] == c then to else [a[0]], Replace(a[1..], c, to), Replace(b, c, to));
      assert (a + b)[1..] == a[1..] + b;
    }
  }

  lemma {:induction false} ReplaceNone(s: string, c: char, to: string)
    requires c !in s
    ensures Replace(s, c, to) == s
  {
    if s != "" {
      ReplaceNone(s[1..], c, to);
    }
  }

  lemma EscapeConcat(a: string, b: string)
    ensures Escape(a + b) == Escape(a) + Escape(b)
  {
    var a1, b1 := Replace(a, '&', "&amp;"), Replace(b, '&', "&amp;");
    var a2, b2 := Replace(a1, '<', "&lt;"), Replace(b1, '<', "&lt;");
    var a3, b3 := Replace(a2, '>', "&gt;"), Replace(b2, '>', "&gt;");
    var a4, b4 := Replace(a3, '"', "&quot;"), Replace(b3, '"', "&quot;");
    ReplaceConcat(a, b, '&', "&amp;");
    ReplaceConcat(a1, b1, '<', "&lt;");
    ReplaceConcat(a2, b2, '>', "&gt;");
    ReplaceConcat(a3, b3, '"', "&quot;");
    ReplaceConcat(a4, b4, '\'', "&#x27;");
  }

  /** One pass either turns a character into its entity or leaves it, and leaves entities. */
  lemma Pass(c: char, d: char)
    ensures Replace([c], d, Entity(d)) == if c == d then Entity(c) else [c]
    ensures d in "<>\"'" ==> Replace(Entity(c), d, Entity(d)) == Entity(c)
  {
    assert [c][1..] == "";
    if d in "<>\"'" {
      ReplaceNone(Entity(c), d, Entity(d));
    }
  }

  lemma EscapeOne(c: char)
    ensures Escape([c]) == Entity(c)
  {
    hide Replace;
    Pass(c, '&');
    Pass(c, '<');
    Pass(c, '>');
    Pass(c, '"');
    Pass(c, '\'');
  }

  /** The order of the passes matters, and this is the order that makes them independent. */
  lemma {:induction false} EscapeIsEntityMap(s: string)
    ensures Escape(s) == EntityMap(s)
  {
    if s != "" {
      assert s == [s[0]] + s[1..];
      EscapeConcat([s[0]], s[1..]);
      EscapeOne(s[0]);
      EscapeIsEntityMap(s[1..]);
    }
  }

  predicate IsSpecial(c: char) { c == '&' || c == '<' || c == '>' || c == '"' || c == '\'' }

  lemma EscapeNothing(s: string)
    requires forall c :: c in s ==> !IsSpecial(c)
    ensures Escape(s) == s
  {
    ReplaceNone(s, '&', "&amp;");
    ReplaceNone(s, '<', "&lt;");
    ReplaceNone(s, '>', "&gt;");
    ReplaceNone(s, '"', "&quot;");
    ReplaceNone(s, '\'', "&#x27;");
  }

  lemma {:induction false} EscapeLeavesNoMarkup(s: string)
    ensures '<' !in Escape(s) && '>' !in Escape(s) && '"' !in Escape(s)
  {
    EscapeIsEntityMap(s);
    if s != "" {
      EscapeIsEntityMap(s[1..]);
      EscapeLeavesNoMarkup(s[1..]);
    }
  }

  lemma {:induction false} UnescapeOne(c: char, rest: string)
    ensures Unescape(Entity(c) + rest) == [c] + Unescape(rest)
  {
    var s := Entity(c) + rest;
    assert s[|Entity(c)|..] == rest;
    if Entity(c) == [c] {
      assert s[0] == c && c != '&';
    }
  }

  lemma {:induction false} UnescapeEscape(s: string)
    ensures Unescape(Escape(s)) == s
  {
    EscapeIsEntityMap(s);
    if s != "" {
      UnescapeOne(s[0], EntityMap(s[1..]));
      EscapeIsEntityMap(s[1..]);
      UnescapeEscape(s[1..]);
    }
  }
}
