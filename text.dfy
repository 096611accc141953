/**
 * Java's `String.toLowerCase` and `String.equalsIgnoreCase`, restricted to the
 * ASCII letters (every other character maps to itself).
 */
module Text {

  predicate IsUpper(c: char) {
    'A' <= c <= 'Z'
  }

  function LowerChar(c: char): char {
    if IsUpper(c) then (c as int + 32) as char else c
  }

  function UpperChar(c: char): char {
    if 'a' <= c <= 'z' then (c as int - 32) as char else c
  }

  /** `String.toLowerCase()`. */
  function ToLowerCase(s: string): string {
    if s == [] then [] else [LowerChar(s[0])] + ToLowerCase(s[1..])
  }

  /** True when no character of `s` is an upper-case letter. */
  predicate NoUpper(s: string) {
    forall i :: 0 <= i < |s| ==> !IsUpper(s[i])
  }

  /**
   * `String.equalsIgnoreCase`: same length, and at each position the two
   * characters are equal or have the same upper-case form.
   */
  predicate EqualsIgnoreCase(a: string, b: string) {
    |a| == |b| &&
    forall i :: 0 <= i < |a| ==> a[i] == b[i] || UpperChar(a[i]) == UpperChar(b[i])
  }

  /** Lower-casing keeps the length and maps every character through LowerChar. */
  lemma {:induction false} ToLowerCaseAt(s: string)
    ensures |ToLowerCase(s)| == |s|
    ensures forall i :: 0 <= i < |s| ==> ToLowerCase(s)[i] == LowerChar(s[i])
  {
    if s != [] {
      ToLowerCaseAt(s[1..]);
    }
  }

  /** A lower-cased string contains no upper-case letter. */
  lemma LowerHasNoUpper(s: string)
    ensures NoUpper(ToLowerCase(s))
  {
    ToLowerCaseAt(s);
  }

  /** Lower-casing leaves a string without upper-case letters as it is. */
  lemma LowerKeepsLowerCase(s: string)
    requires NoUpper(s)
    ensures ToLowerCase(s) == s
  {
    ToLowerCaseAt(s);
  }

  /** Two characters agree up to case exactly when their lower-case forms are equal. */
  lemma SameUpperIffSameLower(c: char, d: char)
    ensures (c == d || UpperChar(c) == UpperChar(d)) <==> LowerChar(c) == LowerChar(d)
  {
  }

  /** `equalsIgnoreCase` holds exactly when both lower-cased strings are equal. */
  lemma EqualsIgnoreCaseIffLowerEqual(a: string, b: string)
    ensures EqualsIgnoreCase(a, b) <==> ToLowerCase(a) == ToLowerCase(b)
  {
    ToLowerCaseAt(a);
    ToLowerCaseAt(b);
    forall i | 0 <= i < |a| && i < |b|
      ensures (a[i] == b[i] || UpperChar(a[i]) == UpperChar(b[i])) <==> LowerChar(a[i]) == LowerChar(b[i])
    {
      SameUpperIffSameLower(a[i], b[i]);
    }
    if ToLowerCase(a) == ToLowerCase(b) {
      assert |a| == |b|;
      forall i | 0 <= i < |a|
        ensures LowerChar(a[i]) == LowerChar(b[i])
      {
        assert ToLowerCase(a)[i] == ToLowerCase(b)[i];
      }
    }
  }

  /** Against a lower-case literal, `equalsIgnoreCase` is equality after lower-casing. */
  lemma EqualsIgnoreCaseLowerLiteral(t: string, w: string)
    requires NoUpper(w)
    ensures EqualsIgnoreCase(t, w) <==> ToLowerCase(t) == w
  {
    EqualsIgnoreCaseIffLowerEqual(t, w);
    LowerKeepsLowerCase(w);
  }
}
