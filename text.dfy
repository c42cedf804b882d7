/** The string functions of Go's standard library that the services apply
    to their input: `strings.TrimSpace`, `strings.ToUpper`,
    `strings.ToLower`, and byte-wise string order. Case mapping is restricted
    to ASCII; white space is the full `unicode.IsSpace` set. */
module Text {

  /** `unicode.IsSpace`: the ASCII white space characters, U+0085, U+00A0
      and the Unicode White_Space characters above U+00FF. */
  predicate IsSpace(c: char) {
    var n := c as int;
    n == 0x09 || n == 0x0A || n == 0x0B || n == 0x0C || n == 0x0D || n == 0x20
    || n == 0x85 || n == 0xA0 || n == 0x1680 || (0x2000 <= n <= 0x200A)
    || n == 0x2028 || n == 0x2029 || n == 0x202F || n == 0x205F || n == 0x3000
  }

  predicate AllSpace(s: string) {
    forall i :: 0 <= i < |s| ==> IsSpace(s[i])
  }

  /** No white space at either end. */
  predicate Trimmed(s: string) {
    s == [] || (!IsSpace(s[0]) && !IsSpace(s[|s| - 1]))
  }

  /** Drops leading white space; what is left is a suffix of `s`. */
  function TrimLeft(s: string): (r: string)
    ensures |r| <= |s| && r == s[|s| - |r|..]
    ensures r == [] || !IsSpace(r[0])
    ensures r == [] <==> AllSpace(s)
  {
    if s != [] && IsSpace(s[0]) then TrimLeft(s[1..]) else s
  }

  /** Drops trailing white space; what is left is a prefix of `s`. */
  function TrimRight(s: string): (r: string)
    ensures |r| <= |s| && r == s[..|r|]
    ensures r == [] || !IsSpace(r[|r| - 1])
    ensures r == [] <==> AllSpace(s)
  {
    if s != [] && IsSpace(s[|s| - 1]) then TrimRight(s[..|s| - 1]) else s
  }

  /** `strings.TrimSpace`. */
  function TrimSpace(s: string): (r: string)
    ensures Trimmed(r) && |r| <= |s|
    ensures r == "" <==> AllSpace(s)
  {
    var t := TrimLeft(s);
    var r := TrimRight(t);
    assert r != [] ==> r[0] == t[0];
    r
  }

  /** Trimming leaves a trimmed string alone. */
  lemma TrimSpaceOfTrimmed(s: string)
    requires Trimmed(s)
    ensures TrimSpace(s) == s
  {
  }

  lemma TrimSpaceIdempotent(s: string)
    ensures TrimSpace(TrimSpace(s)) == TrimSpace(s)
  {
    TrimSpaceOfTrimmed(TrimSpace(s));
  }

  function UpperChar(c: char): char {
    if 'a' <= c <= 'z' then (c as int - 32) as char else c
  }

  function LowerChar(c: char): char {
    if 'A' <= c <= 'Z' then (c as int + 32) as char else c
  }

  /** `strings.ToUpper` on ASCII letters; every other character is kept. */
  function ToUpper(s: string): (r: string)
    ensures |r| == |s| && forall i :: 0 <= i < |s| ==> r[i] == UpperChar(s[i])
  {
    if s == [] then [] else [UpperChar(s[0])] + ToUpper(s[1..])
  }

  /** `strings.ToLower` on ASCII letters; every other character is kept. */
  function ToLower(s: string): (r: string)
    ensures |r| == |s| && forall i :: 0 <= i < |s| ==> r[i] == LowerChar(s[i])
  {
    if s == [] then [] else [LowerChar(s[0])] + ToLower(s[1..])
  }

  lemma ToUpperIdempotent(s: string)
    ensures ToUpper(ToUpper(s)) == ToUpper(s)
  {
  }

  lemma ToLowerIdempotent(s: string)
    ensures ToLower(ToLower(s)) == ToLower(s)
  {
  }

  /** Upper-casing neither creates nor removes white space, so it keeps a
      trimmed string trimmed, and the two normalisations commute. */
  lemma ToUpperKeepsTrimmed(s: string)
    requires Trimmed(s)
    ensures Trimmed(ToUpper(s))
  {
  }

  lemma ToLowerKeepsTrimmed(s: string)
    requires Trimmed(s)
    ensures Trimmed(ToLower(s))
  {
  }

  /** `strings.ToUpper(strings.TrimSpace(s))`, the normalisation of every
      catalog code. */
  function NormaliseCode(s: string): (r: string)
    ensures Trimmed(r) && |r| <= |s|
    ensures r == "" <==> AllSpace(s)
    ensures forall i :: 0 <= i < |r| ==> !('a' <= r[i] <= 'z')
  {
    var t := TrimSpace(s);
    ToUpperKeepsTrimmed(t);
    ToUpperHasNoLower(t);
    ToUpper(t)
  }

  lemma ToUpperHasNoLower(s: string)
    ensures forall i :: 0 <= i < |s| ==> !('a' <= ToUpper(s)[i] <= 'z')
  {
    forall i | 0 <= i < |s|
      ensures !('a' <= ToUpper(s)[i] <= 'z')
    {
      UpperCharIsNotLower(s[i]);
    }
  }

  lemma UpperCharIsNotLower(c: char)
    ensures !('a' <= UpperChar(c) <= 'z')
  {
  }

  lemma ToLowerHasNoUpper(s: string)
    ensures forall i :: 0 <= i < |s| ==> !('A' <= ToLower(s)[i] <= 'Z')
  {
    forall i | 0 <= i < |s|
      ensures !('A' <= ToLower(s)[i] <= 'Z')
    {
      LowerCharIsNotUpper(s[i]);
    }
  }

  lemma LowerCharIsNotUpper(c: char)
    ensures !('A' <= LowerChar(c) <= 'Z')
  {
  }

  /** Normalising a code twice is normalising it once. */
  lemma NormaliseCodeIdempotent(s: string)
    ensures NormaliseCode(NormaliseCode(s)) == NormaliseCode(s)
  {
    var t := NormaliseCode(s);
    TrimSpaceOfTrimmed(t);
    ToUpperIdempotent(TrimSpace(s));
  }

  /** `strings.ToLower(strings.TrimSpace(s))`. */
  function NormaliseLower(s: string): (r: string)
    ensures Trimmed(r) && |r| <= |s|
    ensures r == "" <==> AllSpace(s)
    ensures forall i :: 0 <= i < |r| ==> !('A' <= r[i] <= 'Z')
  {
    var t := TrimSpace(s);
    ToLowerKeepsTrimmed(t);
    ToLowerHasNoUpper(t);
    ToLower(t)
  }

  /** Normalising to lower case twice is normalising once. */
  lemma NormaliseLowerIdempotent(s: string)
    ensures NormaliseLower(NormaliseLower(s)) == NormaliseLower(s)
  {
    TrimSpaceOfTrimmed(NormaliseLower(s));
    ToLowerIdempotent(TrimSpace(s));
  }

  /** A trimmed string without upper-case letters is its own lower-case
      normalisation. */
  lemma {:induction false} ToLowerOfLower(s: string)
    requires forall i :: 0 <= i < |s| ==> !('A' <= s[i] <= 'Z')
    ensures ToLower(s) == s
  {
    if s != [] {
      ToLowerOfLower(s[1..]);
    }
  }

  /** A trimmed string is all white space only when it is empty. */
  lemma TrimmedBlankIsEmpty(s: string)
    requires Trimmed(s)
    ensures AllSpace(s) <==> s == ""
  {
  }

  /** Strict lexicographic order on character codes (what Go's `<` on two
      strings does for byte strings). */
  predicate StrLt(a: string, b: string) {
    if a == [] then b != []
    else if b == [] then false
    else a[0] < b[0] || (a[0] == b[0] && StrLt(a[1..], b[1..]))
  }

  /** Any two strings are equal or ordered one way or the other. */
  lemma {:induction false} StrLtTrichotomy(a: string, b: string)
    ensures StrLt(a, b) || a == b || StrLt(b, a)
  {
    if a != [] && b != [] && a[0] == b[0] {
      StrLtTrichotomy(a[1..], b[1..]);
      if a[1..] == b[1..] {
        assert a == [a[0]] + a[1..] && b == [b[0]] + b[1..];
      }
    }
  }

  lemma {:induction false} StrLtIrreflexive(a: string)
    ensures !StrLt(a, a)
  {
    if a != [] {
      StrLtIrreflexive(a[1..]);
    }
  }

  lemma {:induction false} StrLtTransitive(a: string, b: string, c: string)
    requires StrLt(a, b) && StrLt(b, c)
    ensures StrLt(a, c)
  {
    if a != [] && a[0] == b[0] && b[0] == c[0] {
      StrLtTransitive(a[1..], b[1..], c[1..]);
    }
  }

  /** "Not after", the order of `ORDER BY name ASC`, is total ... */
  lemma StrNotAfterTotal(a: string, b: string)
    ensures !StrLt(b, a) || !StrLt(a, b)
  {
    if StrLt(b, a) && StrLt(a, b) {
      StrLtTransitive(a, b, a);
      StrLtIrreflexive(a);
    }
  }

  /** ... and transitive. */
  lemma StrNotAfterTransitive(a: string, b: string, c: string)
    requires !StrLt(b, a) && !StrLt(c, b)
    ensures !StrLt(c, a)
  {
    StrLtTrichotomy(a, b);
    if StrLt(c, a) && StrLt(a, b) {
      StrLtTransitive(c, a, b);
    }
  }

  predicate IsAsciiDigit(c: char) {
    '0' <= c <= '9'
  }

  predicate IsAsciiLetter(c: char) {
    'a' <= c <= 'z' || 'A' <= c <= 'Z'
  }
}
