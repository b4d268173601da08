/** Case conversion of ticker symbols and sector keys, restricted to ASCII letters. */
module Text {

  predicate IsLowerAscii(c: char) { 'a' <= c <= 'z' }

  predicate IsUpperAscii(c: char) { 'A' <= c <= 'Z' }

  function UpperChar(c: char): char {
    if IsLowerAscii(c) then (c as int - 32) as char else c
  }

  function LowerChar(c: char): char {
    if IsUpperAscii(c) then (c as int + 32) as char else c
  }

  /** `String.prototype.toUpperCase` on ASCII: only the letters a-z change. */
  function Upper(s: string): (r: string)
    ensures |r| == |s|
    ensures forall i :: 0 <= i < |r| ==> !IsLowerAscii(r[i])
    ensures forall i :: 0 <= i < |r| && !IsLowerAscii(s[i]) ==> r[i] == s[i]
    ensures forall i :: 0 <= i < |r| ==> LowerChar(r[i]) == LowerChar(s[i])
  {
    seq(|s|, i requires 0 <= i < |s| => UpperChar(s[i]))
  }

  /** `String.prototype.toLowerCase` on ASCII: only the letters A-Z change. */
  function Lower(s: string): (r: string)
    ensures |r| == |s|
    ensures forall i :: 0 <= i < |r| ==> !IsUpperAscii(r[i])
    ensures forall i :: 0 <= i < |r| && !IsUpperAscii(s[i]) ==> r[i] == s[i]
    ensures forall i :: 0 <= i < |r| ==> UpperChar(r[i]) == UpperChar(s[i])
  {
    seq(|s|, i requires 0 <= i < |s| => LowerChar(s[i]))
  }

  predicate HasNoUpperAscii(s: string) {
    forall i :: 0 <= i < |s| ==> !IsUpperAscii(s[i])
  }

  /** A string without capitals is its own lower-case form (so a sector key maps to itself). */
  lemma LowerOfLowercase(s: string)
    requires HasNoUpperAscii(s)
    ensures Lower(s) == s
  {
    assert forall i :: 0 <= i < |s| ==> Lower(s)[i] == s[i];
  }

  /** The first code point above the Basic Multilingual Plane. */
  const FirstAstral: int := 0x1_0000

  /** `String.prototype.length`: one UTF-16 code unit per character of the Basic Multilingual
      Plane and two (a surrogate pair) per character above it. */
  function Utf16Length(s: string): (n: nat)
    ensures |s| <= n <= 2 * |s|
    ensures (forall i :: 0 <= i < |s| ==> s[i] as int < FirstAstral) ==> n == |s|
    ensures (forall i :: 0 <= i < |s| ==> s[i] as int >= FirstAstral) ==> n == 2 * |s|
    ensures |s| == 1 ==> n == if s[0] as int < FirstAstral then 1 else 2
  {
    if s == [] then 0
    else Utf16Length(s[..|s| - 1]) + if s[|s| - 1] as int < FirstAstral then 1 else 2
  }

  /** The code-unit count is additive over concatenation, so with the one-character case it fixes
      the length of every string. */
  lemma {:induction false} Utf16LengthConcat(a: string, b: string)
    ensures Utf16Length(a + b) == Utf16Length(a) + Utf16Length(b)
    decreases |b|
  {
    if b == [] {
      assert a + b == a;
    } else {
      var p := b[..|b| - 1];
      Utf16LengthConcat(a, p);
      assert (a + b)[..|a + b| - 1] == a + p;
      assert (a + b)[|a + b| - 1] == b[|b| - 1];
    }
  }

  /** Nine ASCII letters and one character above the Basic Multilingual Plane are 11 code units. */
  lemma Utf16LengthMixed()
    ensures Utf16Length("ABCDEFGHI\U{1D400}") == 11
  {
    Utf16LengthConcat("ABCDEFGHI", "\U{1D400}");
    assert "ABCDEFGHI" + "\U{1D400}" == "ABCDEFGHI\U{1D400}";
  }
}
