/** Decimal rendering of Java `long` values and the blank-string test used by the
    timings header. */
module Text {

  /** The character for a decimal digit. */
  function DigitChar(d: nat): (c: char)
    requires d < 10
    ensures '0' <= c <= '9'
  {
    ('0' as int + d) as char
  }

  /** The value of a character read as a decimal digit. */
  function DigitValue(c: char): int
  {
    c as int - '0' as int
  }

  predicate IsDigit(c: char) { '0' <= c <= '9' }

  predicate AllDigits(s: string) { forall k :: 0 <= k < |s| ==> IsDigit(s[k]) }

  /** Decimal text of a natural number, without leading zeros (what
      `StringBuilder.append(long)` and `%d` print for a non-negative value). */
  function NatToString(n: nat): (s: string)
    ensures 1 <= |s| && AllDigits(s)
    ensures n > 0 ==> s[0] != '0'
    decreases n
  {
    if n < 10 then [DigitChar(n)] else NatToString(n / 10) + [DigitChar(n % 10)]
  }

  /** Decimal text of a signed number: a leading '-' for negative values. */
  function IntToString(i: int): (s: string)
    ensures 1 <= |s|
    ensures i >= 0 <==> IsDigit(s[0])
    ensures i < 0 <==> s[0] == '-'
  {
    if i < 0 then "-" + NatToString(-i) else NatToString(i)
  }

  /** Reads a run of decimal digits back; the inverse of NatToString. */
  function ParseNat(s: string): int
  {
    if s == [] then 0 else ParseNat(s[..|s| - 1]) * 10 + DigitValue(s[|s| - 1])
  }

  /** Reads an optionally signed decimal number back; the inverse of IntToString. */
  function ParseInt(s: string): int
  {
    if s != [] && s[0] == '-' then -ParseNat(s[1..]) else ParseNat(s)
  }

  lemma {:induction false} ParseNatToString(n: nat)
    ensures ParseNat(NatToString(n)) == n
    decreases n
  {
    if n >= 10 {
      var s := NatToString(n);
      assert s[..|s| - 1] == NatToString(n / 10);
      ParseNatToString(n / 10);
    }
  }

  /** A minus sign followed by digits reads back as the negated magnitude. */
  lemma ParseSigned(n: nat)
    ensures ParseInt("-" + NatToString(n)) == -(n as int)
  {
    var digits := NatToString(n);
    assert ("-" + digits)[1..] == digits;
    ParseNatToString(n);
  }

  /** Decimal rendering loses nothing: the number can be read back from its text. */
  lemma ParseIntToString(i: int)
    ensures ParseInt(IntToString(i)) == i
  {
    if i < 0 {
      ParseSigned(-i);
    } else {
      ParseNatToString(i);
    }
  }

  /** Rendering is injective, so a rendered number identifies the value it came from. */
  lemma IntToStringInjective(i: int, j: int)
    ensures IntToString(i) == IntToString(j) ==> i == j
  {
    ParseIntToString(i);
    ParseIntToString(j);
  }

  /** `Character.isWhitespace`: the ASCII controls it accepts and the Unicode space,
      line and paragraph separators other than the non-breaking ones. */
  predicate IsWhitespace(c: char)
  {
    || c == ' ' || c == '\t' || c == '\n' || c == '\U{000B}' || c == '\U{000C}' || c == '\r'
    || ('\U{001C}' <= c <= '\U{001F}')
    || c == '\U{1680}'
    || ('\U{2000}' <= c <= '\U{200A}' && c != '\U{2007}')
    || c == '\U{2028}' || c == '\U{2029}' || c == '\U{205F}' || c == '\U{3000}'
  }

  /** `StringUtils.isNotBlank`, scanning from the end: the text is not empty and its
      last character or an earlier one is not whitespace. */
  predicate IsNotBlank(s: string)
  {
    |s| > 0 && (!IsWhitespace(s[|s| - 1]) || IsNotBlank(s[..|s| - 1]))
  }

  /** A text is not blank exactly when some character of it is not whitespace. */
  lemma {:induction false} IsNotBlankWitness(s: string)
    ensures IsNotBlank(s) <==> exists k :: 0 <= k < |s| && !IsWhitespace(s[k])
  {
    if |s| > 0 {
      var init := s[..|s| - 1];
      IsNotBlankWitness(init);
      if exists k :: 0 <= k < |init| && !IsWhitespace(init[k]) {
        var k :| 0 <= k < |init| && !IsWhitespace(init[k]);
        assert s[k] == init[k];
      }
      if exists k :: 0 <= k < |s| && !IsWhitespace(s[k]) {
        var k :| 0 <= k < |s| && !IsWhitespace(s[k]);
        if k < |s| - 1 {
          assert init[k] == s[k];
        }
      }
    }
  }
}
