/**
 How the downloader prints a digest (`hex_lower` in
 `crates/zwhisper-settings/src/download.rs`) and what a checksum's text says.
 */
module Hexadecimal {
  import opened Wrappers

  function LowerChar(c: char): char {
    if 'A' <= c <= 'Z' then c - 'A' + 'a' else c
  }

  function Lower(s: string): (r: string)
    ensures |r| == |s|
  {
    seq(|s|, i requires 0 <= i < |s| => LowerChar(s[i]))
  }

  const DIGITS := "0123456789abcdef"

  function HexDigit(n: nat): char
    requires n < 16
  {
    DIGITS[n]
  }

  function HexByte(b: Byte): string {
    [HexDigit(b as int / 16), HexDigit(b as int % 16)]
  }

  function HexLower(digest: Bytes): string {
    if digest == [] then "" else HexLower(digest[..|digest| - 1]) + HexByte(digest[|digest| - 1])
  }

  /** The value of a hexadecimal digit, in either case. */
  function Nibble(c: char): Option<int> {
    if '0' <= c <= '9' then Some(c as int - '0' as int)
    else if 'a' <= c <= 'f' then Some(c as int - 'a' as int + 10)
    else if 'A' <= c <= 'F' then Some(c as int - 'A' as int + 10)
    else None
  }

  predicate SpellsByte(high: char, low: char, b: Byte) {
    Nibble(high).Some? && Nibble(low).Some? && 16 * Nibble(high).value + Nibble(low).value == b as int
  }

  /** Read two digits at a time, the high one first, `text` is `digest`. */
  ghost predicate Spells(text: string, digest: Bytes) {
    |text| == 2 * |digest| && forall i | 0 <= i < |digest| :: SpellsByte(text[2 * i], text[2 * i + 1], digest[i])
  }

  predicate LowerDigit(c: char) {
    '0' <= c <= '9' || 'a' <= c <= 'f'
  }

  lemma HexByteIsRead(b: Byte)
    ensures var s := HexByte(b); |s| == 2 && SpellsByte(s[0], s[1], b) && LowerDigit(s[0]) && LowerDigit(s[1])
  {
    HexDigitIsRead(b as int / 16);
    HexDigitIsRead(b as int % 16);
  }

  lemma HexDigitIsRead(n: nat)
    requires n < 16
    ensures Nibble(HexDigit(n)) == Some(n) && LowerDigit(HexDigit(n))
  {
  }

  lemma {:induction false} HexLength(d: Bytes)
    ensures |HexLower(d)| == 2 * |d|
  {
    if d != [] {
      HexLength(d[..|d| - 1]);
    }
  }

  // The last byte is printed last, as two digits.
  lemma {:induction false} HexSlices(d: Bytes)
    requires d != []
    ensures var n := |d| - 1;
            && |HexLower(d)| == 2 * n + 2
            && HexLower(d)[..2 * n] == HexLower(d[..n]) && HexLower(d)[2 * n..] == HexByte(d[n])
  {
    var n := |d| - 1;
    HexLength(d[..n]);
    var init, end := HexLower(d[..n]), HexByte(d[n]);
    assert HexLower(d) == init + end;
    hide HexLower, HexByte;
    assert (init + end)[..|init|] == init && (init + end)[|init|..] == end;
  }

  // Printed in lower case, the digest is spelled.
  lemma {:induction false} HexIsRead(digest: Bytes)
    ensures Spells(HexLower(digest), digest) && forall c | c in HexLower(digest) :: LowerDigit(c)
  {
    hide HexByte, SpellsByte, LowerDigit, HexLower;
    HexLength(digest);
    if digest != [] {
      var n := |digest| - 1;
      HexSlices(digest);
      HexIsRead(digest[..n]);
      HexByteIsRead(digest[n]);
      ReadsOn(HexLower(digest), digest);
    }
  }

  lemma ReadsOn(text: string, digest: Bytes)
    requires digest != [] && |text| == 2 * |digest|
    requires var n := |digest| - 1;
             && Spells(text[..2 * n], digest[..n]) && (forall c | c in text[..2 * n] :: LowerDigit(c))
             && SpellsByte(text[2 * n..][0], text[2 * n..][1], digest[n])
             && LowerDigit(text[2 * n..][0]) && LowerDigit(text[2 * n..][1])
    ensures Spells(text, digest) && forall c | c in text :: LowerDigit(c)
  {
    hide SpellsByte, LowerDigit;
    var n := |digest| - 1;
    forall i | 0 <= i < |digest|
      ensures SpellsByte(text[2 * i], text[2 * i + 1], digest[i])
    {
      if i < n {
        assert text[..2 * n][2 * i] == text[2 * i] && text[..2 * n][2 * i + 1] == text[2 * i + 1];
        assert digest[..n][i] == digest[i];
      }
    }
    assert text == text[..2 * n] + [text[2 * n..][0], text[2 * n..][1]];
  }

  // Printed in lower case, two digits for each byte.
  method FormatHex(digest: Bytes) returns (s: string)
    ensures s == HexLower(digest)
    ensures Spells(s, digest) && forall c | c in s :: '0' <= c <= '9' || 'a' <= c <= 'f'
  {
    HexIsRead(digest);
    s := "";
    var i := 0;
    while i < |digest|
      invariant i <= |digest|
      invariant s == HexLower(digest[..i])
    {
      assert digest[..i + 1][..i] == digest[..i];
      s := s + HexByte(digest[i]);
      i := i + 1;
    }
    assert digest[..i] == digest;
  }

  lemma LoweringKeepsValue(c: char)
    ensures Nibble(LowerChar(c)) == Nibble(c) && !('A' <= LowerChar(c) <= 'Z')
  {
  }

  lemma DigitsOfByte(c: char, c': char, x: char, x': char, b: Byte)
    requires SpellsByte(c, c', b) && SpellsByte(x, x', b)
    ensures Nibble(c) == Nibble(x) && Nibble(c') == Nibble(x')
  {
  }

  lemma ValueIsOfOneLower(c: char, x: char)
    requires Nibble(c).Some? && Nibble(c) == Nibble(x) && LowerDigit(x) && !('A' <= c <= 'Z')
    ensures c == x
  {
  }

  // The text the gate compares, character by character.
  lemma {:induction false} ComparedExactly(text: string, d: Bytes)
    ensures Lower(text) == HexLower(d) <==> Spells(text, d)
  {
    var hex, low := HexLower(d), Lower(text);
    HexIsRead(d);
    hide HexLower, Nibble, LowerChar, LowerDigit;
    if low == hex {
      forall i | 0 <= i < |d|
        ensures SpellsByte(text[2 * i], text[2 * i + 1], d[i])
      {
        LoweringKeepsValue(text[2 * i]);
        LoweringKeepsValue(text[2 * i + 1]);
        assert SpellsByte(hex[2 * i], hex[2 * i + 1], d[i]);
      }
    }
    if Spells(text, d) {
      forall i | 0 <= i < |d|
        ensures low[2 * i] == hex[2 * i] && low[2 * i + 1] == hex[2 * i + 1]
      {
        LoweringKeepsValue(text[2 * i]);
        LoweringKeepsValue(text[2 * i + 1]);
        DigitsOfByte(text[2 * i], text[2 * i + 1], hex[2 * i], hex[2 * i + 1], d[i]);
        ValueIsOfOneLower(low[2 * i], hex[2 * i]);
        ValueIsOfOneLower(low[2 * i + 1], hex[2 * i + 1]);
      }
      forall j | 0 <= j < |low|
        ensures low[j] == hex[j]
      {
        assert j == 2 * (j / 2) || j == 2 * (j / 2) + 1;
      }
    }
  }

  lemma {:induction false} SpelledIsUnique(text: string, d: Bytes, e: Bytes)
    requires Spells(text, d) && Spells(text, e)
    ensures d == e
  {
    hide Nibble;
    forall i | 0 <= i < |d|
      ensures d[i] == e[i]
    {
      assert SpellsByte(text[2 * i], text[2 * i + 1], d[i]) && SpellsByte(text[2 * i], text[2 * i + 1], e[i]);
    }
  }

  // Different digests print differently.
  lemma HexIsInjective(d: Bytes, e: Bytes)
    requires HexLower(d) == HexLower(e)
    ensures d == e
  {
    hide Spells, HexLower;
    HexIsRead(d);
    HexIsRead(e);
    SpelledIsUnique(HexLower(d), d, e);
  }
}
