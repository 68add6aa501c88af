/** The checks on names a caller supplies (internal/governor/governor.go, internal/natsim/model.go).
    A string here is a sequence of Unicode scalar values, so it is always valid text. */
module Identifiers {

  const MAX_IDENTIFIER_BYTES: nat := 256

  predicate IsSpace(c: char) {
    var n := c as int;
    || 0x09 <= n <= 0x0D || n == 0x20 || n == 0x85 || n == 0xA0 || n == 0x1680 || 0x2000 <= n <= 0x200A
    || n == 0x2028 || n == 0x2029 || n == 0x202F || n == 0x205F || n == 0x3000
  }

  predicate IsControl(c: char) { c as int < 0x20 || 0x7F <= c as int < 0xA0 }

  /** UTF-8, by section 3 of RFC 3629. */
  function Encoded(c: char): seq<int> {
    var n := c as int;
    if n < 0x80 then [n]
    else if n < 0x800 then [0xC0 + n / 64, 0x80 + n % 64]
    else if n < 0x1_0000 then [0xE0 + n / 4096, 0x80 + n / 64 % 64, 0x80 + n % 64]
    else [0xF0 + n / 262144, 0x80 + n / 4096 % 64, 0x80 + n / 64 % 64, 0x80 + n % 64]
  }

  function Utf8(s: string): seq<int> { if s == "" then [] else Encoded(s[0]) + Utf8(s[1..]) }

  /** How many bytes the UTF-8 text takes. */
  function TextBytes(s: string): nat {
    if s == "" then 0
    else
      var n := s[0] as int;
      (if n < 0x80 then 1 else if n < 0x800 then 2 else if n < 0x1_0000 then 3 else 4) + TextBytes(s[1..])
  }

  /** Without the white space at both ends. */
  function Trimmed(s: string): (t: string)
    decreases |s|
  {
    if s == "" then ""
    else if IsSpace(s[0]) then Trimmed(s[1..])
    else if IsSpace(s[|s| - 1]) then Trimmed(s[..|s| - 1])
    else s
  }

  /** Not empty, and nothing to trim. */
  predicate Canonical(s: string) { s != "" && !IsSpace(s[0]) && !IsSpace(s[|s| - 1]) }

  lemma {:induction false} TrimmedShorter(s: string)
    ensures |Trimmed(s)| <= |s| && (Trimmed(s) == s ==> s == "" || Canonical(s))
    decreases |s|
  {
    if s != "" && IsSpace(s[0]) { TrimmedShorter(s[1..]); }
    else if s != "" && IsSpace(s[|s| - 1]) { TrimmedShorter(s[..|s| - 1]); }
  }

  /** Looking at the two ends is the same as trimming and comparing. */
  lemma CanonicalIsTrimmed(s: string)
    ensures Canonical(s) <==> Trimmed(s) != "" && Trimmed(s) == s
  {
    TrimmedShorter(s);
  }

  lemma {:induction false} TextBytesAreUtf8(s: string)
    ensures TextBytes(s) == |Utf8(s)|
  {
    if s != "" { TextBytesAreUtf8(s[1..]); }
  }

  /** An identifier is a text that is not empty, that trimming leaves alone, of at most 256 bytes of UTF-8 and without a
      control character. */
  lemma IdentifierLaw(s: string)
    ensures ValidIdentifier(s) <==>
      && s != "" && Trimmed(s) == s && |Utf8(s)| <= 256
      && forall i :: 0 <= i < |s| ==> !((s[i] as int) < 0x20 || 0x7F <= s[i] as int < 0xA0)
  {
    CanonicalIsTrimmed(s);
    TextBytesAreUtf8(s);
  }

  predicate ValidIdentifier(s: string) {
    Canonical(s) && TextBytes(s) <= MAX_IDENTIFIER_BYTES && forall i :: 0 <= i < |s| ==> !IsControl(s[i])
  }
}
