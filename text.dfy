/** Strings as the keyword classifier sees them: lower-casing and the
    substring test that Python's `in` performs on two strings. */
module Text {

  predicate IsUpper(c: char) {
    'A' <= c <= 'Z'
  }

  /** Lower-cases one character. Only the ASCII letters have a case here. */
  function LowerChar(c: char): (r: char)
    ensures !IsUpper(r)
    ensures IsUpper(c) ==> r as int == c as int + 32
    ensures !IsUpper(c) ==> r == c
  {
    if IsUpper(c) then (c as int + 32) as char else c
  }

  /** `s.lower()`, restricted to ASCII case folding. */
  function Lower(s: string): (r: string)
    ensures |r| == |s|
    ensures forall i :: 0 <= i < |r| ==> r[i] == LowerChar(s[i])
    ensures forall i :: 0 <= i < |r| ==> !IsUpper(r[i])
  {
    seq(|s|, i requires 0 <= i < |s| => LowerChar(s[i]))
  }

  /** Lowering is idempotent: lowering a lowered string changes nothing. */
  lemma LowerIdempotent(s: string)
    ensures Lower(Lower(s)) == Lower(s)
  {
  }

  /** `pattern in text` for two Python strings: `pattern` occurs at some
      offset of `text`. The empty pattern occurs in every text. */
  predicate Contains(text: string, pattern: string) {
    exists i :: 0 <= i <= |text| && pattern <= text[i..]
  }

  lemma ContainsEmpty(text: string)
    ensures Contains(text, "")
  {
    assert "" <= text[0..];
  }

  /** A pattern whose first character appears nowhere in the text does not
      occur in it. */
  lemma MissingFirstChar(text: string, pattern: string)
    requires pattern != []
    requires forall i :: 0 <= i < |text| ==> text[i] != pattern[0]
    ensures !Contains(text, pattern)
  {
    forall i | 0 <= i <= |text|
      ensures !(pattern <= text[i..])
    {
      if i < |text| {
        assert text[i..][0] == text[i];
      }
    }
  }

  /** Text without capitals is its own lower-case form. */
  lemma LowerOfLowerCase(s: string)
    requires forall i :: 0 <= i < |s| ==> !IsUpper(s[i])
    ensures Lower(s) == s
  {
  }
}
