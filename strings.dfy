/**
 * The two JavaScript string builtins the employee filter relies on:
 * `String.prototype.includes` and `String.prototype.toLowerCase`.
 */
module Strings {

  /** `text.includes(part)`: `part` is a prefix of `text` or of one of its suffixes. */
  predicate Includes(text: string, part: string)
  {
    part <= text || (text != [] && Includes(text[1..], part))
  }

  /** Reference definition: `part` occurs in `text` starting at offset `i`. */
  ghost predicate OccursAt(text: string, part: string, i: int)
  {
    0 <= i && i + |part| <= |text| && text[i..i + |part|] == part
  }

  /** `Includes` holds exactly when `part` occurs at some offset of `text`. */
  lemma {:induction false} IncludesIffOccurs(text: string, part: string)
    ensures Includes(text, part) <==> exists i :: OccursAt(text, part, i)
  {
    if Includes(text, part) {
      if part <= text {
        assert OccursAt(text, part, 0);
      } else {
        IncludesIffOccurs(text[1..], part);
        var i :| OccursAt(text[1..], part, i);
        assert text[1..][i..i + |part|] == text[i + 1..i + 1 + |part|];
        assert OccursAt(text, part, i + 1);
      }
    }
    if exists i :: OccursAt(text, part, i) {
      var i :| OccursAt(text, part, i);
      if i > 0 {
        assert text[1..][i - 1..i - 1 + |part|] == text[i..i + |part|];
        assert OccursAt(text[1..], part, i - 1);
        IncludesIffOccurs(text[1..], part);
      }
    }
  }

  predicate IsUpper(c: char)
  {
    'A' <= c <= 'Z'
  }

  predicate IsLower(c: char)
  {
    'a' <= c <= 'z'
  }

  /** Every character of an included part is a character of the text. */
  lemma IncludesNeedsEveryChar(text: string, part: string, j: int)
    requires Includes(text, part) && 0 <= j < |part|
    ensures part[j] in text
  {
    IncludesIffOccurs(text, part);
    var i :| OccursAt(text, part, i);
    assert text[i..i + |part|][j] == text[i + j];
  }

  /** ASCII lower-casing of one character. */
  function LowerChar(c: char): (r: char)
    ensures !IsUpper(r)
    ensures IsUpper(c) ==> r as int == c as int + 32
    ensures !IsUpper(c) ==> r == c
  {
    if IsUpper(c) then (c as int + 32) as char else c
  }

  /** `s.toLowerCase()`, restricted to ASCII letters. */
  function ToLower(s: string): (r: string)
    ensures |r| == |s|
    ensures forall i :: 0 <= i < |r| ==> !IsUpper(r[i])
    ensures forall i :: 0 <= i < |s| && !IsUpper(s[i]) ==> r[i] == s[i]
  {
    seq(|s|, i requires 0 <= i < |s| => LowerChar(s[i]))
  }

  /** Reference definition: `a` and `b` are the same character, or the same ASCII letter in the two cases. */
  predicate SameCharIgnoringCase(a: char, b: char)
  {
    || a == b
    || (IsUpper(a) && b as int == a as int + 32)
    || (IsUpper(b) && a as int == b as int + 32)
  }

  /** Reference definition: `s` and `t` agree character by character up to ASCII case. */
  ghost predicate SameIgnoringCase(s: string, t: string)
  {
    |s| == |t| && forall i :: 0 <= i < |s| ==> SameCharIgnoringCase(s[i], t[i])
  }

  /** Two characters lower-case alike exactly when they differ at most in ASCII case. */
  lemma LowerCharEqualIff(a: char, b: char)
    ensures LowerChar(a) == LowerChar(b) <==> SameCharIgnoringCase(a, b)
  {
  }

  /** Two strings lower-case alike exactly when they differ at most in ASCII case. */
  lemma ToLowerEqualIff(s: string, t: string)
    ensures ToLower(s) == ToLower(t) <==> SameIgnoringCase(s, t)
  {
    if |s| == |t| {
      forall i | 0 <= i < |s|
        ensures ToLower(s)[i] == ToLower(t)[i] <==> SameCharIgnoringCase(s[i], t[i])
      {
        LowerCharEqualIff(s[i], t[i]);
      }
      if SameIgnoringCase(s, t) {
        assert forall i :: 0 <= i < |s| ==> ToLower(s)[i] == ToLower(t)[i];
      }
    }
  }

  /** Lower-casing twice is lower-casing once. */
  lemma ToLowerIdempotent(s: string)
    ensures ToLower(ToLower(s)) == ToLower(s)
  {
  }

  /** Lower-casing both sides keeps every inclusion. */
  lemma ToLowerKeepsIncludes(text: string, part: string)
    requires Includes(text, part)
    ensures Includes(ToLower(text), ToLower(part))
  {
    IncludesIffOccurs(text, part);
    var i :| OccursAt(text, part, i);
    assert ToLower(text)[i..i + |part|] == ToLower(part);
    assert OccursAt(ToLower(text), ToLower(part), i);
    IncludesIffOccurs(ToLower(text), ToLower(part));
  }
}
