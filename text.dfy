/** Character classes and case folding used by validation and lookups. */
module Text {

  /** .NET `char.IsWhiteSpace`, which is also what the regular-expression
      class `\s` matches: U+0009..U+000D, U+0085 and the Unicode separators
      (Zs, Zl, Zp). */
  predicate IsWhiteSpace(c: char)
  {
    ('\t' <= c <= '\r') || c == ' ' || c == '\U{0085}' || c == '\U{00A0}' ||
    c == '\U{1680}' || ('\U{2000}' <= c <= '\U{200A}') || c == '\U{2028}' ||
    c == '\U{2029}' || c == '\U{202F}' || c == '\U{205F}' || c == '\U{3000}'
  }

  /** `string.IsNullOrWhiteSpace` for a non-null string. */
  predicate IsBlank(s: string)
  {
    forall i :: 0 <= i < |s| ==> IsWhiteSpace(s[i])
  }

  /** `char.ToLower` restricted to ASCII letters. */
  function LowerChar(c: char): char
  {
    if 'A' <= c <= 'Z' then (c as int + 32) as char else c
  }

  /** `string.ToLower()`, ASCII letters only. */
  function ToLower(s: string): (r: string)
    ensures |r| == |s|
    ensures forall i :: 0 <= i < |s| ==> r[i] == LowerChar(s[i])
  {
    seq(|s|, i requires 0 <= i < |s| => LowerChar(s[i]))
  }

  /** `a.ToLower() == b.ToLower()`. */
  predicate EqualsIgnoreCase(a: string, b: string)
  {
    ToLower(a) == ToLower(b)
  }

  /** Lower-casing leaves no ASCII capital, changes no other character, and
      a second pass changes nothing; so comparing ignoring case compares the
      strings position by position up to ASCII case. */
  lemma ToLowerFolds(a: string, b: string)
    ensures forall i :: 0 <= i < |ToLower(a)| ==> !('A' <= ToLower(a)[i] <= 'Z')
    ensures forall i :: 0 <= i < |a| && !('A' <= a[i] <= 'Z') ==> ToLower(a)[i] == a[i]
    ensures ToLower(ToLower(a)) == ToLower(a)
    ensures EqualsIgnoreCase(a, b) <==> |a| == |b| && forall i :: 0 <= i < |a| ==> LowerChar(a[i]) == LowerChar(b[i])
  {
    if |a| == |b| && forall i :: 0 <= i < |a| ==> LowerChar(a[i]) == LowerChar(b[i]) {
      assert ToLower(a) == ToLower(b);
    }
  }

  /** The UTF-16 code units `c` takes: a character outside the Basic
      Multilingual Plane is a surrogate pair. */
  function Utf16Units(c: char): nat
  {
    if c as int < 0x1_0000 then 1 else 2
  }

  /** .NET's `string.Length`, which [StringLength], [MaxLength] and an
      nvarchar column all count: UTF-16 code units, not characters. */
  function Utf16Length(s: string): (n: nat)
    ensures |s| <= n <= 2 * |s|
    decreases |s|
  {
    if s == [] then 0 else Utf16Length(s[..|s| - 1]) + Utf16Units(s[|s| - 1])
  }

  /** The .NET length is the number of characters exactly when every
      character lies in the Basic Multilingual Plane. */
  lemma {:induction false} Utf16LengthOfBmp(s: string)
    ensures Utf16Length(s) == |s| <==> forall i :: 0 <= i < |s| ==> s[i] as int < 0x1_0000
    decreases |s|
  {
    if s != [] {
      var front := s[..|s| - 1];
      Utf16LengthOfBmp(front);
      assert forall i :: 0 <= i < |front| ==> front[i] == s[i];
    }
  }

  /** Two emoji are four code units: long enough for a three-unit minimum. */
  lemma Utf16LengthOfEmoji()
    ensures Utf16Length("\U{1F600}\U{1F600}") == 4
  {
    assert "\U{1F600}\U{1F600}"[..1] == "\U{1F600}";
  }

  predicate IsAsciiDigit(c: char)
  {
    '0' <= c <= '9'
  }
}
