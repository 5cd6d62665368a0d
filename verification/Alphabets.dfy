/** The character classes, letter by letter, and spellings in any letter case. */
module Alphabets {
  import opened Chars

  const SMALL := "abcdefghijklmnopqrstuvwxyz"
  const CAPITAL := "ABCDEFGHIJKLMNOPQRSTUVWXYZ"
  const DIGITS := "0123456789"
  const HEX_SMALL := "0123456789abcdef"
  const HEX_CAPITAL := "0123456789ABCDEF"

  /** Printable characters that are neither letters nor digits. */
  const MARKS := "!\"#$%&'()*+,-./:;<=>?@[\\]^_`{|}~"

  predicate IsLetter(c: char) {
    c in SMALL || c in CAPITAL
  }

  predicate IsPrintable(c: char) {
    IsLetter(c) || c in DIGITS || c in MARKS
  }

  lemma SmallAt(k: nat)
    requires k < 26
    ensures SMALL[k] as int == 'a' as int + k
  {
  }

  lemma CapitalAt(k: nat)
    requires k < 26
    ensures CAPITAL[k] as int == 'A' as int + k
  {
  }

  // ---- The classes ----

  lemma AlphasAre(c: char)
    ensures IsAlpha(c) <==> IsLetter(c)
  {
  }

  lemma NumsAre(c: char)
    ensures IsNum(c) <==> c in DIGITS
    ensures IsNum(c) ==> DIGITS[DigitOf(c)] == c
  {
  }

  /** The tokens of section 3.2.6 of RFC 7230. */
  lemma TokensAre(c: char)
    ensures IsToken(c) <==> IsLetter(c) || c in DIGITS || c in "!#$%&'*+-.^_`|~"
  {
  }

  lemma PrintablesAre(c: char)
    ensures IsPrintable(c) <==> '!' <= c <= '~'
  {
    AlphasAre(c);
    NumsAre(c);
    MarksAre(c);
    hide IsLetter;
  }

  lemma MarksAre(c: char)
    ensures c in MARKS <==> '!' <= c <= '/' || ':' <= c <= '@' || '[' <= c <= '`' || '{' <= c <= '~'
  {
  }

  /** What may stand in a value: no control characters but tab and line ends; every byte from 128 up. */
  lemma HeaderCharsAre(c: char)
    ensures IsHeaderChar(c) <==> IsPrintable(c) || c in " \t\r\n" || c as int >= 128
  {
    PrintablesAre(c);
    hide IsPrintable;
  }

  lemma UrlCharsAre(c: char)
    ensures IsUrlChar(c) <==> IsPrintable(c) && c !in "#?"
  {
    PrintablesAre(c);
    hide IsPrintable;
  }

  lemma UserinfoCharsAre(c: char)
    ensures IsUserinfoChar(c) <==> IsLetter(c) || c in DIGITS || c in "-_.!~*'()" || c in "%;:&=+$,"
  {
    AlphasAre(c);
    hide IsLetter, IsAlpha;
  }

  lemma HostCharsAre(c: char)
    ensures IsHostChar(c) <==> IsLetter(c) || c in DIGITS || c in ".-"
  {
    AlphasAre(c);
    hide IsLetter, IsAlpha;
  }

  // ---- Letter case ----

  predicate IsCapitalOf(c: char, l: char) {
    exists k | 0 <= k < |SMALL| :: SMALL[k] == l && CAPITAL[k] == c
  }

  /** One letter of a name in lower case, or its capital. */
  predicate Spells(c: char, l: char) {
    c == l || IsCapitalOf(c, l)
  }

  /** `name` in any letter case. */
  predicate IsSpelling(w: string, name: string) {
    |w| == |name| && forall i | 0 <= i < |w| :: Spells(w[i], name[i])
  }

  /** Lower-case letters and dashes. */
  predicate IsLowerName(name: string) {
    forall i | 0 <= i < |name| :: name[i] in SMALL || name[i] == '-'
  }

  lemma CapitalsAre(c: char, l: char)
    ensures IsCapitalOf(c, l) <==> 'A' <= c <= 'Z' && l as int == c as int + 32
  {
    if IsCapitalOf(c, l) {
      var k :| 0 <= k < |SMALL| && SMALL[k] == l && CAPITAL[k] == c;
      SmallAt(k);
      CapitalAt(k);
    }
    if 'A' <= c <= 'Z' && l as int == c as int + 32 {
      var k := c as int - 'A' as int;
      SmallAt(k);
      CapitalAt(k);
      assert SMALL[k] == l && CAPITAL[k] == c;
    }
  }

  lemma SmallAre(c: char)
    ensures c in SMALL <==> 'a' <= c <= 'z'
  {
  }

  /** The `tokens` table keeps a letter of either case, and knows a dash. */
  lemma TokenSpells(c: char, l: char)
    requires IsToken(c) && (l in SMALL || l == '-')
    ensures TokenOf(c) == l <==> Spells(c, l)
  {
    CapitalsAre(c, l);
    SmallAre(l);
    hide IsCapitalOf;
  }

  /** So does `LOWER`, on all bytes of a value but the CR. */
  lemma LowerSpells(c: char, l: char)
    requires IsHeaderChar(c) && c != CR && (l in SMALL || l == '-')
    ensures Lower(c) == l <==> Spells(c, l)
  {
    CapitalsAre(c, l);
    SmallAre(l);
    hide IsCapitalOf;
  }

  /** `LOWER` sets the bit of value 32 of a byte, and no other. */
  lemma LowerSetsBit(c: char)
    requires c as int < 256
    ensures Lower(c) as int == c as int + if c as int / 32 % 2 == 0 then 32 else 0
  {
  }

  // ---- Hexadecimal digits ----

  predicate IsHexDigit(c: char, d: nat) {
    d < 16 && (c == HEX_SMALL[d] || c == HEX_CAPITAL[d])
  }

  lemma HexDigitIs(c: char, d: nat)
    ensures IsHexDigit(c, d) ==> Unhex(c) == d
  {
  }

  /** The digits of either case; below 128 nothing else is one. */
  lemma HexDigitsAre(c: char)
    requires c as int < 128
    ensures forall d: nat | d < 16 :: Unhex(c) == d <==> IsHexDigit(c, d)
    ensures Unhex(c) == -1 <==> c !in HEX_SMALL && c !in HEX_CAPITAL
  {
  }
}
