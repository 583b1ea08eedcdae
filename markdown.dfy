/**
 * escape_markdown: one regular-expression substitution that puts a
 * backslash in front of every Markdown-special character.
 */
module Markdown {

  /** The characters escape_markdown escapes, backslash included. */
  const SpecialChars: string := "\\_*[]()~`>#+-=|{}.!"

  predicate IsSpecial(c: char) {
    c in SpecialChars
  }

  function CountSpecial(s: string): nat {
    if s == [] then 0 else (if IsSpecial(s[0]) then 1 else 0) + CountSpecial(s[1..])
  }

  /** escape_markdown(text) */
  function EscapeMarkdown(s: string): (r: string)
    ensures |r| == |s| + CountSpecial(s)
  {
    if s == [] then []
    else (if IsSpecial(s[0]) then ['\\', s[0]] else [s[0]]) + EscapeMarkdown(s[1..])
  }

  /** Drops each backslash that stands in front of a special character. */
  function Unescape(r: string): string {
    if r == [] then []
    else if |r| >= 2 && r[0] == '\\' && IsSpecial(r[1]) then [r[1]] + Unescape(r[2..])
    else [r[0]] + Unescape(r[1..])
  }

  /**
   * r is made of units that are either a plain character or a backslash
   * followed by a special character: no special character stands alone.
   */
  predicate WellEscaped(r: string) {
    if r == [] then true
    else if IsSpecial(r[0]) then |r| >= 2 && r[0] == '\\' && IsSpecial(r[1]) && WellEscaped(r[2..])
    else WellEscaped(r[1..])
  }

  /** Removing the inserted backslashes gives back the input. */
  lemma {:induction false} UnescapeEscape(s: string)
    ensures Unescape(EscapeMarkdown(s)) == s
  {
    if s != [] {
      var rest := EscapeMarkdown(s[1..]);
      UnescapeEscape(s[1..]);
      if IsSpecial(s[0]) {
        assert EscapeMarkdown(s) == ['\\', s[0]] + rest;
        assert (['\\', s[0]] + rest)[2..] == rest;
      } else {
        assert EscapeMarkdown(s) == [s[0]] + rest;
        assert s[0] != '\\';
        assert ([s[0]] + rest)[1..] == rest;
      }
    }
  }

  /** Every special character of the output is part of an escape pair. */
  lemma {:induction false} EscapeIsWellEscaped(s: string)
    ensures WellEscaped(EscapeMarkdown(s))
  {
    if s != [] {
      var rest := EscapeMarkdown(s[1..]);
      EscapeIsWellEscaped(s[1..]);
      if IsSpecial(s[0]) {
        assert (['\\', s[0]] + rest)[2..] == rest;
      } else {
        assert ([s[0]] + rest)[1..] == rest;
      }
    }
  }

  /** Text with no special character passes through unchanged. */
  lemma {:induction false} EscapePlain(s: string)
    requires forall i :: 0 <= i < |s| ==> !IsSpecial(s[i])
    ensures EscapeMarkdown(s) == s
  {
    if s != [] {
      EscapePlain(s[1..]);
    }
  }

  /** Escaping distributes over concatenation, one character at a time. */
  lemma {:induction false} EscapeAppend(s: string, t: string)
    ensures EscapeMarkdown(s + t) == EscapeMarkdown(s) + EscapeMarkdown(t)
  {
    if s != [] {
      assert (s + t)[1..] == s[1..] + t;
      EscapeAppend(s[1..], t);
    } else {
      assert s + t == t;
    }
  }

  /** Two different texts never escape to the same output. */
  lemma {:induction false} EscapeInjective(s: string, t: string)
    requires EscapeMarkdown(s) == EscapeMarkdown(t)
    ensures s == t
  {
    UnescapeEscape(s);
    UnescapeEscape(t);
  }
}
