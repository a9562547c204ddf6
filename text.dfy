/** The string operations the Python and TypeScript sources lean on
    (`in`, `startswith`, `strip`, `lstrip`, `replace`, `lower`, `upper`,
    `title`, decimal formatting), written out over `seq<char>`.
    Case mapping is ASCII only. */
module Text {

  /** Python's `str.isspace()`, which is also what `strip()` removes and
      what `\s` matches in a `str` regular expression. */
  predicate IsSpace(c: char) {
    c == ' ' || ('\t' <= c <= '\r') || ('\U{1c}' <= c <= '\U{1f}')
    || c == '\U{85}' || c == '\U{a0}' || c == '\U{1680}'
    || ('\U{2000}' <= c <= '\U{200a}') || c == '\U{2028}' || c == '\U{2029}'
    || c == '\U{202f}' || c == '\U{205f}' || c == '\U{3000}'
  }

  /** A Unicode decimal digit (general category Nd, Unicode 15.0): what `\d`
      matches in a `str` regular expression and what `int()` and `float()`
      read as a digit. */
  predicate IsDigit(c: char) { DigitZero(c) >= 0 }

  /** The code point of the zero of the run of ten decimal digits that holds
      `c`, or -1 when `c` is not a decimal digit. Every Nd digit lies in such
      a run, ordered from zero to nine; the runs are searched by halving. */
  function DigitZero(c: char): (z: int)
    ensures z == -1 || (0 <= z <= c as int < z + 10)
  {
    if c as int < 0xAA50 then LowDigitZero(c as int) else HighDigitZero(c as int)
  }

  /** `DigitZero` below U+AA50. */
  function LowDigitZero(n: int): (z: int)
    requires n < 0xAA50
    ensures z == -1 || (0 <= z <= n < z + 10)
  {
    if n < 0x1040 then
      if n < 0xB66 then
        if n < 0x966 then
          if n < 0x6F0 then
            if n < 0x660 then
              if 0x30 <= n < 0x3A then 0x30 else -1
            else
              if 0x660 <= n < 0x66A then 0x660 else -1
          else
            if n < 0x7C0 then
              if 0x6F0 <= n < 0x6FA then 0x6F0 else -1
            else
              if 0x7C0 <= n < 0x7CA then 0x7C0 else -1
        else
          if n < 0xA66 then
            if n < 0x9E6 then
              if 0x966 <= n < 0x970 then 0x966 else -1
            else
              if 0x9E6 <= n < 0x9F0 then 0x9E6 else -1
          else
            if n < 0xAE6 then
              if 0xA66 <= n < 0xA70 then 0xA66 else -1
            else
              if 0xAE6 <= n < 0xAF0 then 0xAE6 else -1
      else
        if n < 0xD66 then
          if n < 0xC66 then
            if n < 0xBE6 then
              if 0xB66 <= n < 0xB70 then 0xB66 else -1
            else
              if 0xBE6 <= n < 0xBF0 then 0xBE6 else -1
          else
            if n < 0xCE6 then
              if 0xC66 <= n < 0xC70 then 0xC66 else -1
            else
              if 0xCE6 <= n < 0xCF0 then 0xCE6 else -1
        else
          if n < 0xE50 then
            if n < 0xDE6 then
              if 0xD66 <= n < 0xD70 then 0xD66 else -1
            else
              if 0xDE6 <= n < 0xDF0 then 0xDE6 else -1
          else
            if n < 0xED0 then
              if 0xE50 <= n < 0xE5A then 0xE50 else -1
            else
              if n < 0xF20 then
                if 0xED0 <= n < 0xEDA then 0xED0 else -1
              else
                if 0xF20 <= n < 0xF2A then 0xF20 else -1
    else
      if n < 0x1B50 then
        if n < 0x1946 then
          if n < 0x17E0 then
            if n < 0x1090 then
              if 0x1040 <= n < 0x104A then 0x1040 else -1
            else
              if 0x1090 <= n < 0x109A then 0x1090 else -1
          else
            if n < 0x1810 then
              if 0x17E0 <= n < 0x17EA then 0x17E0 else -1
            else
              if 0x1810 <= n < 0x181A then 0x1810 else -1
        else
          if n < 0x1A80 then
            if n < 0x19D0 then
              if 0x1946 <= n < 0x1950 then 0x1946 else -1
            else
              if 0x19D0 <= n < 0x19DA then 0x19D0 else -1
          else
            if n < 0x1A90 then
              if 0x1A80 <= n < 0x1A8A then 0x1A80 else -1
            else
              if 0x1A90 <= n < 0x1A9A then 0x1A90 else -1
      else
        if n < 0xA620 then
          if n < 0x1C40 then
            if n < 0x1BB0 then
              if 0x1B50 <= n < 0x1B5A then 0x1B50 else -1
            else
              if 0x1BB0 <= n < 0x1BBA then 0x1BB0 else -1
          else
            if n < 0x1C50 then
              if 0x1C40 <= n < 0x1C4A then 0x1C40 else -1
            else
              if 0x1C50 <= n < 0x1C5A then 0x1C50 else -1
        else
          if n < 0xA900 then
            if n < 0xA8D0 then
              if 0xA620 <= n < 0xA62A then 0xA620 else -1
            else
              if 0xA8D0 <= n < 0xA8DA then 0xA8D0 else -1
          else
            if n < 0xA9D0 then
              if 0xA900 <= n < 0xA90A then 0xA900 else -1
            else
              if n < 0xA9F0 then
                if 0xA9D0 <= n < 0xA9DA then 0xA9D0 else -1
              else
                if 0xA9F0 <= n < 0xA9FA then 0xA9F0 else -1
  }

  /** `DigitZero` from U+AA50 on. */
  function HighDigitZero(n: int): (z: int)
    requires n >= 0xAA50
    ensures z == -1 || (0 <= z <= n < z + 10)
  {
    if n < 0x11C50 then
      if n < 0x111D0 then
        if n < 0x10D30 then
          if n < 0xFF10 then
            if n < 0xABF0 then
              if 0xAA50 <= n < 0xAA5A then 0xAA50 else -1
            else
              if 0xABF0 <= n < 0xABFA then 0xABF0 else -1
          else
            if n < 0x104A0 then
              if 0xFF10 <= n < 0xFF1A then 0xFF10 else -1
            else
              if 0x104A0 <= n < 0x104AA then 0x104A0 else -1
        else
          if n < 0x110F0 then
            if n < 0x11066 then
              if 0x10D30 <= n < 0x10D3A then 0x10D30 else -1
            else
              if 0x11066 <= n < 0x11070 then 0x11066 else -1
          else
            if n < 0x11136 then
              if 0x110F0 <= n < 0x110FA then 0x110F0 else -1
            else
              if 0x11136 <= n < 0x11140 then 0x11136 else -1
      else
        if n < 0x11650 then
          if n < 0x11450 then
            if n < 0x112F0 then
              if 0x111D0 <= n < 0x111DA then 0x111D0 else -1
            else
              if 0x112F0 <= n < 0x112FA then 0x112F0 else -1
          else
            if n < 0x114D0 then
              if 0x11450 <= n < 0x1145A then 0x11450 else -1
            else
              if 0x114D0 <= n < 0x114DA then 0x114D0 else -1
        else
          if n < 0x11730 then
            if n < 0x116C0 then
              if 0x11650 <= n < 0x1165A then 0x11650 else -1
            else
              if 0x116C0 <= n < 0x116CA then 0x116C0 else -1
          else
            if n < 0x118E0 then
              if 0x11730 <= n < 0x1173A then 0x11730 else -1
            else
              if n < 0x11950 then
                if 0x118E0 <= n < 0x118EA then 0x118E0 else -1
              else
                if 0x11950 <= n < 0x1195A then 0x11950 else -1
    else
      if n < 0x1D7D8 then
        if n < 0x16A60 then
          if n < 0x11DA0 then
            if n < 0x11D50 then
              if 0x11C50 <= n < 0x11C5A then 0x11C50 else -1
            else
              if 0x11D50 <= n < 0x11D5A then 0x11D50 else -1
          else
            if n < 0x11F50 then
              if 0x11DA0 <= n < 0x11DAA then 0x11DA0 else -1
            else
              if 0x11F50 <= n < 0x11F5A then 0x11F50 else -1
        else
          if n < 0x16B50 then
            if n < 0x16AC0 then
              if 0x16A60 <= n < 0x16A6A then 0x16A60 else -1
            else
              if 0x16AC0 <= n < 0x16ACA then 0x16AC0 else -1
          else
            if n < 0x1D7CE then
              if 0x16B50 <= n < 0x16B5A then 0x16B50 else -1
            else
              if 0x1D7CE <= n < 0x1D7D8 then 0x1D7CE else -1
      else
        if n < 0x1E140 then
          if n < 0x1D7EC then
            if n < 0x1D7E2 then
              if 0x1D7D8 <= n < 0x1D7E2 then 0x1D7D8 else -1
            else
              if 0x1D7E2 <= n < 0x1D7EC then 0x1D7E2 else -1
          else
            if n < 0x1D7F6 then
              if 0x1D7EC <= n < 0x1D7F6 then 0x1D7EC else -1
            else
              if 0x1D7F6 <= n < 0x1D800 then 0x1D7F6 else -1
        else
          if n < 0x1E4F0 then
            if n < 0x1E2F0 then
              if 0x1E140 <= n < 0x1E14A then 0x1E140 else -1
            else
              if 0x1E2F0 <= n < 0x1E2FA then 0x1E2F0 else -1
          else
            if n < 0x1E950 then
              if 0x1E4F0 <= n < 0x1E4FA then 0x1E4F0 else -1
            else
              if n < 0x1FBF0 then
                if 0x1E950 <= n < 0x1E95A then 0x1E950 else -1
              else
                if 0x1FBF0 <= n < 0x1FBFA then 0x1FBF0 else -1
  }

  /** The digits `str()` writes. */
  predicate IsAsciiDigit(c: char) { '0' <= c <= '9' }

  predicate IsUpperAscii(c: char) { 'A' <= c <= 'Z' }

  predicate IsLowerAscii(c: char) { 'a' <= c <= 'z' }

  function LowerChar(c: char): char {
    if IsUpperAscii(c) then (c as int + 32) as char else c
  }

  function UpperChar(c: char): char {
    if IsLowerAscii(c) then (c as int - 32) as char else c
  }

  /** `s.lower()` */
  function Lower(s: string): (r: string)
    ensures |r| == |s|
    ensures forall i :: 0 <= i < |s| ==> r[i] == LowerChar(s[i])
  {
    if s == [] then [] else [LowerChar(s[0])] + Lower(s[1..])
  }

  /** `s.upper()` */
  function Upper(s: string): (r: string)
    ensures |r| == |s|
    ensures forall i :: 0 <= i < |s| ==> r[i] == UpperChar(s[i])
  {
    if s == [] then [] else [UpperChar(s[0])] + Upper(s[1..])
  }

  /** Python's `w in s` on strings: `w` occurs as a contiguous substring. */
  predicate Contains(s: string, w: string) {
    exists i :: 0 <= i <= |s| - |w| && OccursAt(s, w, i)
  }

  /** `w` occurs in `s` starting at index `i`. */
  predicate OccursAt(s: string, w: string, i: int) {
    0 <= i && i + |w| <= |s| && s[i..i + |w|] == w
  }

  /** `s.startswith(p)` */
  predicate StartsWith(s: string, p: string) {
    |p| <= |s| && s[..|p|] == p
  }

  function LStrip(s: string): (r: string)
    ensures |r| <= |s| && r == s[|s| - |r|..]
    ensures r == [] || !IsSpace(r[0])
    ensures forall i :: 0 <= i < |s| - |r| ==> IsSpace(s[i])
  {
    if s != [] && IsSpace(s[0]) then LStrip(s[1..]) else s
  }

  function RStrip(s: string): (r: string)
    ensures |r| <= |s| && r == s[..|r|]
    ensures r == [] || !IsSpace(r[|r| - 1])
    ensures forall i :: |r| <= i < |s| ==> IsSpace(s[i])
  {
    if s != [] && IsSpace(s[|s| - 1]) then RStrip(s[..|s| - 1]) else s
  }

  /** `s.strip()` */
  function Strip(s: string): string {
    RStrip(LStrip(s))
  }

  /** `strip()` keeps any property every character has. */
  lemma StripKeepsCharProperty(s: string, p: char -> bool)
    requires forall i :: 0 <= i < |s| ==> p(s[i])
    ensures forall i :: 0 <= i < |Strip(s)| ==> p(Strip(s)[i])
  {
    var l := LStrip(s);
    assert forall i :: 0 <= i < |l| ==> l[i] == s[|s| - |l| + i];
    assert forall i :: 0 <= i < |Strip(s)| ==> Strip(s)[i] == l[i];
  }

  /** A string `strip()` turns into the empty string. */
  predicate IsBlank(s: string) {
    forall i :: 0 <= i < |s| ==> IsSpace(s[i])
  }

  lemma StripEmptyIffBlank(s: string)
    ensures Strip(s) == [] <==> IsBlank(s)
  {
  }

  /** `s.lstrip(c)` for a single character `c`. */
  function LStripChar(s: string, c: char): (r: string)
    ensures |r| <= |s| && r == s[|s| - |r|..]
    ensures r == [] || r[0] != c
  {
    if s != [] && s[0] == c then LStripChar(s[1..], c) else s
  }

  /** `s.replace(cc, '')` where `cc` is the character `c` twice: Python scans
      left to right and deletes non-overlapping occurrences. */
  function RemovePair(s: string, c: char): (r: string)
    ensures |r| <= |s|
  {
    if |s| >= 2 && s[0] == c && s[1] == c then RemovePair(s[2..], c)
    else if s == [] then []
    else [s[0]] + RemovePair(s[1..], c)
  }

  /** No two consecutive characters equal to `c`. */
  predicate NoDoubled(s: string, c: char) {
    forall i :: 0 <= i < |s| - 1 ==> !(s[i] == c && s[i + 1] == c)
  }

  lemma {:induction false} RemovePairHead(s: string, c: char)
    requires s != [] && s[0] != c
    ensures RemovePair(s, c) != [] && RemovePair(s, c)[0] == s[0]
  {
  }

  /** After `replace(cc, '')` no `cc` is left: every run of `c` keeps at most
      one character, and the runs stay apart. */
  lemma {:induction false} RemovePairLeavesNoPair(s: string, c: char)
    ensures NoDoubled(RemovePair(s, c), c)
  {
    if |s| >= 2 && s[0] == c && s[1] == c {
      RemovePairLeavesNoPair(s[2..], c);
    } else if s != [] {
      var rest := RemovePair(s[1..], c);
      RemovePairLeavesNoPair(s[1..], c);
      if s[0] == c && rest != [] {
        // s[1] is not c, so the rest starts with s[1]
        RemovePairHead(s[1..], c);
      }
      assert RemovePair(s, c) == [s[0]] + rest;
    }
  }

  /** A prefix free of `c` passes through unchanged. */
  lemma {:induction false} RemovePairKeepsCleanPrefix(a: string, b: string, c: char)
    requires forall i :: 0 <= i < |a| ==> a[i] != c
    ensures RemovePair(a + b, c) == a + RemovePair(b, c)
  {
    if a != [] {
      RemovePairKeepsCleanPrefix(a[1..], b, c);
      assert (a + b)[0] == a[0];
      assert (a + b)[1..] == a[1..] + b;
      assert a == [a[0]] + a[1..];
      assert RemovePair(a + b, c) == [a[0]] + RemovePair(a[1..] + b, c);
    } else {
      assert a + b == b;
    }
  }

  /** Deleting pairs keeps any property every character has. */
  lemma {:induction false} RemovePairKeepsCharProperty(s: string, c: char, p: char -> bool)
    requires forall i :: 0 <= i < |s| ==> p(s[i])
    ensures forall i :: 0 <= i < |RemovePair(s, c)| ==> p(RemovePair(s, c)[i])
  {
    if |s| >= 2 && s[0] == c && s[1] == c {
      RemovePairKeepsCharProperty(s[2..], c, p);
    } else if s != [] {
      RemovePairKeepsCharProperty(s[1..], c, p);
    }
  }

  lemma {:induction false} RemovePairNoop(s: string, c: char)
    requires NoDoubled(s, c)
    ensures RemovePair(s, c) == s
  {
    if s != [] {
      RemovePairNoop(s[1..], c);
    }
  }

  /** Python `str.title()` on ASCII: a letter is upper-cased when the character
      before it is not a letter, lower-cased otherwise. */
  function Title(s: string): (r: string)
    ensures |r| == |s|
  {
    TitleAfter(s, false)
  }

  function TitleAfter(s: string, afterLetter: bool): (r: string)
    ensures |r| == |s|
  {
    if s == [] then []
    else
      var c := s[0];
      var letter := IsUpperAscii(c) || IsLowerAscii(c);
      [if afterLetter then LowerChar(c) else UpperChar(c)] + TitleAfter(s[1..], letter)
  }

  /** `s.replace(a, b)` for single characters. */
  function ReplaceChar(s: string, a: char, b: char): (r: string)
    ensures |r| == |s|
    ensures forall i :: 0 <= i < |s| ==> r[i] == if s[i] == a then b else s[i]
  {
    if s == [] then [] else [if s[0] == a then b else s[0]] + ReplaceChar(s[1..], a, b)
  }

  // ---------------------------------------------------------------------
  // Decimal numbers

  function DigitChar(d: nat): (c: char)
    requires d < 10
    ensures IsAsciiDigit(c) && c as int - '0' as int == d
  {
    ('0' as int + d) as char
  }

  /** The value of a decimal digit: its distance from the zero of its run. */
  function DigitValue(c: char): (d: nat)
    requires IsDigit(c)
    ensures d < 10
  {
    c as int - DigitZero(c)
  }

  /** The Devanagari digits ० to ९ are decimal digits worth 0 to 9. */
  lemma DevanagariDigit(c: char)
    requires '\U{966}' <= c <= '\U{96f}'
    ensures IsDigit(c) && DigitValue(c) == c as int - 0x966
  {
  }

  /** An ASCII digit is a decimal digit worth its distance from '0'. */
  lemma AsciiDigit(c: char)
    requires IsAsciiDigit(c)
    ensures IsDigit(c) && DigitValue(c) == c as int - '0' as int
  {
  }

  predicate AllDigits(s: string) {
    forall i :: 0 <= i < |s| ==> IsDigit(s[i])
  }

  predicate AllAsciiDigits(s: string) {
    forall i :: 0 <= i < |s| ==> IsAsciiDigit(s[i])
  }

  /** `str(n)` for a natural number. */
  function NatToString(n: nat): (s: string)
    ensures s != [] && AllAsciiDigits(s)
    decreases n
  {
    if n < 10 then [DigitChar(n)] else NatToString(n / 10) + [DigitChar(n % 10)]
  }

  /** `str(i)` for an integer. */
  function IntToString(i: int): (s: string)
    ensures s != []
  {
    if i < 0 then "-" + NatToString(-i) else NatToString(i)
  }

  /** The value of a run of decimal digits, as `int(s)` reads it. */
  function DigitsValue(s: string): nat
    requires AllDigits(s)
  {
    if s == [] then 0 else DigitsValue(s[..|s| - 1]) * 10 + DigitValue(s[|s| - 1])
  }

  /** Reading back what `NatToString` wrote gives the number again. */
  lemma {:induction false} NatToStringRoundTrip(n: nat)
    ensures AllDigits(NatToString(n)) && DigitsValue(NatToString(n)) == n
    decreases n
  {
    var s := NatToString(n);
    forall i | 0 <= i < |s|
      ensures IsDigit(s[i])
    {
      AsciiDigit(s[i]);
    }
    AsciiDigit(s[|s| - 1]);
    if n >= 10 {
      NatToStringRoundTrip(n / 10);
      assert s[..|s| - 1] == NatToString(n / 10);
    }
  }

  lemma NatToStringInjective(a: nat, b: nat)
    requires NatToString(a) == NatToString(b)
    ensures a == b
  {
    NatToStringRoundTrip(a);
    NatToStringRoundTrip(b);
  }
}
