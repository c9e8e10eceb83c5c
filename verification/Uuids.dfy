/** 128-bit identifiers and their hyphenated text form (section 4 of RFC 9562). */
module Uuids {

  function Pow16(k: nat): (r: nat)
    ensures r >= 1
  {
    if k == 0 then 1 else 16 * Pow16(k - 1)
  }

  type Word16 = n: nat | n < 0x10000
  type Word32 = n: nat | n < 0x1_0000_0000
  type Word48 = n: nat | n < 0x1_0000_0000_0000

  /** The five groups of the text form. */
  datatype Uuid = Uuid(first: Word32, second: Word16, third: Word16, fourth: Word16, last: Word48)

  const NIL: Uuid := Uuid(0, 0, 0, 0, 0)

  function HexChar(d: nat): (c: char)
    requires d < 16
    ensures '0' <= c <= '9' || 'a' <= c <= 'f'
  {
    if d < 10 then '0' + d as char else 'a' + (d - 10) as char
  }

  /** The `k` low hexadecimal digits of `n`, most significant first. */
  function Hex(n: nat, k: nat): (s: string)
    ensures |s| == k
  {
    if k == 0 then "" else Hex(n / 16, k - 1) + [HexChar(n % 16)]
  }

  /** 8-4-4-4-12 lower-case hexadecimal digits. */
  function Print(u: Uuid): (s: string)
    ensures |s| == 36
  {
    Hex(u.first, 8) + "-" + Hex(u.second, 4) + "-" + Hex(u.third, 4) + "-" + Hex(u.fourth, 4)
    + "-" + Hex(u.last, 12)
  }

  predicate IsPrintChar(c: char) {
    c == '-' || '0' <= c <= '9' || 'a' <= c <= 'f'
  }

  lemma {:induction false} HexAlphabet(n: nat, k: nat)
    ensures forall c | c in Hex(n, k) :: IsPrintChar(c) && c != '-'
    decreases k
  {
    if k > 0 {
      HexAlphabet(n / 16, k - 1);
    }
  }

  lemma PrintAlphabet(u: Uuid)
    ensures forall c | c in Print(u) :: IsPrintChar(c)
  {
    HexAlphabet(u.first, 8);
    HexAlphabet(u.second, 4);
    HexAlphabet(u.third, 4);
    HexAlphabet(u.fourth, 4);
    HexAlphabet(u.last, 12);
  }

  // ---------------------------------------------------------------- reading back

  function DigitValue(c: char): nat {
    if '0' <= c <= '9' then c as int - '0' as int
    else if 'a' <= c <= 'f' then c as int - 'a' as int + 10
    else 0
  }

  /** The number that hexadecimal digits stand for, most significant first. */
  function HexValue(s: string): nat {
    if s == "" then 0 else 16 * HexValue(s[..|s| - 1]) + DigitValue(s[|s| - 1])
  }

  lemma DigitRoundTrip(d: nat)
    requires d < 16
    ensures DigitValue(HexChar(d)) == d
  {
  }

  /** The last digit and the rest of a number that fits in `k` digits. */
  lemma LastDigit(n: nat, k: nat)
    requires k > 0 && n < Pow16(k)
    ensures n / 16 < Pow16(k - 1) && n == n / 16 * 16 + n % 16
  {
    assert Pow16(k) == 16 * Pow16(k - 1);
  }

  lemma {:induction false} HexRoundTrip(n: nat, k: nat)
    requires n < Pow16(k)
    ensures HexValue(Hex(n, k)) == n
    decreases k
  {
    hide HexChar, DigitValue;
    if k > 0 {
      LastDigit(n, k);
      HexRoundTrip(n / 16, k - 1);
      DigitRoundTrip(n % 16);
      var digits := Hex(n, k);
      assert digits[..|digits| - 1] == Hex(n / 16, k - 1) && digits[|digits| - 1] == HexChar(n % 16);
    }
  }

  lemma PrintGroups(u: Uuid)
    ensures Print(u)[..8] == Hex(u.first, 8) && Print(u)[9..13] == Hex(u.second, 4)
    ensures Print(u)[14..18] == Hex(u.third, 4) && Print(u)[19..23] == Hex(u.fourth, 4)
    ensures Print(u)[24..] == Hex(u.last, 12)
    ensures Print(u)[8] == '-' && Print(u)[13] == '-' && Print(u)[18] == '-' && Print(u)[23] == '-'
  {
  }

  lemma GroupBounds()
    ensures Pow16(4) == 0x10000 && Pow16(8) == 0x1_0000_0000 && Pow16(12) == 0x1_0000_0000_0000
  {
  }

  /** Reading the five hyphen-separated groups of the text gives the identifier back. */
  lemma PrintRoundTrip(u: Uuid)
    ensures var s := Print(u);
            && s[8] == '-' && s[13] == '-' && s[18] == '-' && s[23] == '-'
            && HexValue(s[..8]) == u.first && HexValue(s[9..13]) == u.second && HexValue(s[14..18]) == u.third
            && HexValue(s[19..23]) == u.fourth && HexValue(s[24..]) == u.last
  {
    hide Print, Hex, HexValue, Pow16;
    GroupBounds();
    PrintGroups(u);
    HexRoundTrip(u.first, 8);
    HexRoundTrip(u.second, 4);
    HexRoundTrip(u.third, 4);
    HexRoundTrip(u.fourth, 4);
    HexRoundTrip(u.last, 12);
  }

  /** Distinct identifiers print differently. */
  lemma PrintInjective(u: Uuid, v: Uuid)
    requires Print(u) == Print(v)
    ensures u == v
  {
    hide Print, HexValue;
    PrintRoundTrip(u);
    PrintRoundTrip(v);
  }

  lemma {:induction false} ZeroDigits(k: nat)
    ensures Hex(0, k) == seq(k, _ => '0')
    decreases k
  {
    if k > 0 {
      ZeroDigits(k - 1);
      assert HexChar(0) == '0';
    }
  }

  /** The nil identifier (section 5.9 of RFC 9562). */
  lemma NilText()
    ensures Print(NIL) == "00000000-0000-0000-0000-000000000000"
  {
    hide Hex;
    ZeroDigits(4);
    ZeroDigits(8);
    ZeroDigits(12);
    assert seq(4, _ => '0') == "0000" && seq(8, _ => '0') == "00000000" && seq(12, _ => '0') == "000000000000";
  }
}
