/**
 When is a string blank? The telemetry service asks Go's `strings.TrimSpace`, the Java services ask
 Spring's `StringUtils.hasText`, and the two do not have the same white space.
 */
module Blank {
  import opened Options

  /** `unicode.IsSpace`. */
  predicate IsGoSpace(c: char) {
    || '\t' <= c <= '\r' || c == ' ' || c == '\U{85}' || c == '\U{A0}' || c == '\U{1680}'
    || '\U{2000}' <= c <= '\U{200A}'
    || c == '\U{2028}' || c == '\U{2029}' || c == '\U{202F}' || c == '\U{205F}' || c == '\U{3000}'
  }

  /** `Character.isWhitespace`: the separators of ASCII count, the no-break spaces do not. */
  predicate IsJavaSpace(c: char) {
    || '\t' <= c <= '\r' || '\U{1C}' <= c <= ' ' || c == '\U{1680}'
    || ('\U{2000}' <= c <= '\U{200A}' && c != '\U{2007}')
    || c == '\U{2028}' || c == '\U{2029}' || c == '\U{205F}' || c == '\U{3000}'
  }

  /** `strings.TrimSpace(s) != ""`. */
  predicate GoHasText(s: string) { exists c :: c in s && !IsGoSpace(c) }

  /** `StringUtils.hasText`. */
  predicate HasText(s: Option<string>) { s.Some? && exists c :: c in s.value && !IsJavaSpace(c) }

  /** The information separators U+001C to U+001F. */
  predicate IsSeparator(c: char) { '\U{1C}' <= c <= '\U{1F}' }

  /** Where the two disagree in this direction: text to Go and nothing to Java is a string of white
      space with a separator in it. */
  lemma BlankGap(s: string)
    ensures GoHasText(s) && !HasText(Some(s)) <==>
      (forall c :: c in s ==> IsGoSpace(c) || IsSeparator(c))
      && (forall c :: c in s ==> c != '\U{85}' && c != '\U{A0}' && c != '\U{2007}' && c != '\U{202F}')
      && exists c :: c in s && IsSeparator(c)
  {
    if GoHasText(s) && !HasText(Some(s)) {
      var c :| c in s && !IsGoSpace(c);
      assert IsSeparator(c);
    }
    if c :| c in s && IsSeparator(c) {
      assert !IsGoSpace(c);
    }
  }
}
