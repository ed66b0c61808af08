/** ASCII case mapping, standing in for Java's String.toUpperCase. */
module Ascii {

  predicate IsLower(c: char)
  {
    'a' <= c <= 'z'
  }

  predicate IsUpper(c: char)
  {
    'A' <= c <= 'Z'
  }

  /** Maps 'a'..'z' to 'A'..'Z' and leaves every other character alone. */
  function UpperChar(c: char): char
  {
    if IsLower(c) then (c as int - 32) as char else c
  }

  function LowerChar(c: char): char
  {
    if IsUpper(c) then (c as int + 32) as char else c
  }

  /** The upper-cased string: same length, each character upper-cased. */
  function Upper(s: string): (r: string)
    ensures |r| == |s|
    ensures forall i :: 0 <= i < |s| ==> r[i] == UpperChar(s[i])
  {
    if s == [] then [] else [UpperChar(s[0])] + Upper(s[1..])
  }

  /** `w` is made of upper-case ASCII letters only, like "EMAIL" and "SMS". */
  predicate IsUpperWord(w: string)
  {
    forall i :: 0 <= i < |w| ==> IsUpper(w[i])
  }

  /** `t` spells `w` with each letter in either case ("eMaIl" for "EMAIL"). */
  predicate IsCaseVariant(t: string, w: string)
  {
    |t| == |w| && forall i :: 0 <= i < |t| ==> t[i] == w[i] || t[i] == LowerChar(w[i])
  }

  lemma UpperCharIdempotent(c: char)
    ensures UpperChar(UpperChar(c)) == UpperChar(c)
  {
  }

  /** Upper-casing twice is upper-casing once. */
  lemma UpperIdempotent(s: string)
    ensures Upper(Upper(s)) == Upper(s)
  {
    assert forall i :: 0 <= i < |s| ==> Upper(Upper(s))[i] == Upper(s)[i] by {
      forall i | 0 <= i < |s| {
        UpperCharIdempotent(s[i]);
      }
    }
  }

  /** Upper-casing yields an upper-case word exactly for the case variants of
      that word. */
  lemma UpperIsWordIff(t: string, w: string)
    requires IsUpperWord(w)
    ensures Upper(t) == w <==> IsCaseVariant(t, w)
  {
    if Upper(t) == w {
      forall i | 0 <= i < |t|
        ensures t[i] == w[i] || t[i] == LowerChar(w[i])
      {
        assert UpperChar(t[i]) == w[i];
      }
    }
    if IsCaseVariant(t, w) {
      forall i | 0 <= i < |t|
        ensures Upper(t)[i] == w[i]
      {
        assert IsUpper(w[i]);
      }
    }
  }
}
