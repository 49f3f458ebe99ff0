/** The character class `\d` of Python's `re` module for a `str` pattern
    without the ASCII flag: every character of Unicode general category Nd
    (decimal digit). Every Nd character belongs to a run of ten consecutive
    code points whose first one has digit value 0, so the class is given by
    the first code points of those runs. The table is the one of Unicode 13.0,
    the database of Python 3.9 and 3.10. */
module UnicodeDigits {

  /** The code point lies in the run of ten digits that starts at `zero`. */
  predicate InRun(cp: int, zero: int) {
    zero <= cp < zero + 10
  }

  /** The code point is one of the 650 Nd characters of Unicode 13.0
      (65 runs, listed by the code point of their digit zero). */
  predicate IsDecimalDigitCodePoint(cp: int) {
    || InRun(cp, 0x0030) || InRun(cp, 0x0660) || InRun(cp, 0x06F0) || InRun(cp, 0x07C0) || InRun(cp, 0x0966) || InRun(cp, 0x09E6)
    || InRun(cp, 0x0A66) || InRun(cp, 0x0AE6) || InRun(cp, 0x0B66) || InRun(cp, 0x0BE6) || InRun(cp, 0x0C66) || InRun(cp, 0x0CE6)
    || InRun(cp, 0x0D66) || InRun(cp, 0x0DE6) || InRun(cp, 0x0E50) || InRun(cp, 0x0ED0) || InRun(cp, 0x0F20) || InRun(cp, 0x1040)
    || InRun(cp, 0x1090) || InRun(cp, 0x17E0) || InRun(cp, 0x1810) || InRun(cp, 0x1946) || InRun(cp, 0x19D0) || InRun(cp, 0x1A80)
    || InRun(cp, 0x1A90) || InRun(cp, 0x1B50) || InRun(cp, 0x1BB0) || InRun(cp, 0x1C40) || InRun(cp, 0x1C50) || InRun(cp, 0xA620)
    || InRun(cp, 0xA8D0) || InRun(cp, 0xA900) || InRun(cp, 0xA9D0) || InRun(cp, 0xA9F0) || InRun(cp, 0xAA50) || InRun(cp, 0xABF0)
    || InRun(cp, 0xFF10) || InRun(cp, 0x104A0) || InRun(cp, 0x10D30) || InRun(cp, 0x11066) || InRun(cp, 0x110F0) || InRun(cp, 0x11136)
    || InRun(cp, 0x111D0) || InRun(cp, 0x112F0) || InRun(cp, 0x11450) || InRun(cp, 0x114D0) || InRun(cp, 0x11650) || InRun(cp, 0x116C0)
    || InRun(cp, 0x11730) || InRun(cp, 0x118E0) || InRun(cp, 0x11950) || InRun(cp, 0x11C50) || InRun(cp, 0x11D50) || InRun(cp, 0x11DA0)
    || InRun(cp, 0x16A60) || InRun(cp, 0x16B50) || InRun(cp, 0x1D7CE) || InRun(cp, 0x1D7D8) || InRun(cp, 0x1D7E2) || InRun(cp, 0x1D7EC)
    || InRun(cp, 0x1D7F6) || InRun(cp, 0x1E140) || InRun(cp, 0x1E2F0) || InRun(cp, 0x1E950) || InRun(cp, 0x1FBF0)
  }

  /** `\d`: the character is a Unicode decimal digit. */
  predicate IsDecimalDigit(c: char) {
    IsDecimalDigitCodePoint(c as int)
  }

  /** `[0-9]`: the ten ASCII digits. */
  predicate IsAsciiDigit(c: char) {
    '0' <= c <= '9'
  }

  /** Every ASCII digit is a `\d`, and the only `\d` characters below 128 are
      the ASCII digits. */
  lemma AsciiDecimalDigits(c: char)
    ensures IsAsciiDigit(c) ==> IsDecimalDigit(c)
    ensures IsDecimalDigit(c) && c as int < 128 ==> IsAsciiDigit(c)
  {
  }

  /** A line feed is not a `\d`. */
  lemma NewlineNotDecimalDigit()
    ensures !IsDecimalDigit('\n')
  {
  }

  /** A digit outside ASCII: ARABIC-INDIC DIGIT TWO (U+0662) is a `\d` but not `[0-9]`. */
  lemma ArabicIndicTwoIsDecimalDigit()
    ensures IsDecimalDigit('\U{0662}') && !IsAsciiDigit('\U{0662}')
  {
  }
}
