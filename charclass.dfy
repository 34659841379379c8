/** Byte classes used by both scanner revisions.

    The scanners index their input byte by byte.  A byte is modelled as the
    character with the same code (the Latin-1 view), so that the lexemes cut
    out of the input are strings directly.  The Go code classifies a byte with
    `unicode.IsLetter(rune(b))` and `unicode.IsDigit(rune(b))`; restricted to
    the code points 0..255 these are the Latin-1 letters and the ASCII digits,
    which is what `IsLetter` and `IsDigit` below spell out.
 */
module CharClass {

  /** One byte of source text. */
  type Byte = c: char | c as int < 256 witness ' '

  /** `isWhitespace`: space, carriage return, tab (a newline is handled apart). */
  predicate IsWhitespace(c: Byte) {
    c == ' ' || c == '\r' || c == '\t'
  }

  /** `unicode.IsDigit` on a byte: only the ASCII digits are decimal digits below 256. */
  predicate IsDigit(c: Byte) {
    '0' <= c <= '9'
  }

  /** `unicode.IsLetter` on a byte: the ASCII letters and the Latin-1 letters
      U+00AA, U+00B5, U+00BA, U+00C0..U+00D6, U+00D8..U+00F6, U+00F8..U+00FF. */
  predicate IsLetter(c: Byte) {
    var k := c as int;
    ('A' <= c <= 'Z') || ('a' <= c <= 'z') ||
    k == 0xAA || k == 0xB5 || k == 0xBA ||
    (0xC0 <= k <= 0xD6) || (0xD8 <= k <= 0xF6) || 0xF8 <= k
  }

  /** `isLetterOrUnderscore`: a byte that may start an identifier. */
  predicate IsLetterOrUnderscore(c: Byte) {
    IsLetter(c) || c == '_'
  }

  /** A byte that may continue an identifier: letter, digit or underscore. */
  predicate IsIdentChar(c: Byte) {
    IsLetterOrUnderscore(c) || IsDigit(c)
  }

  /** A byte that starts a comparison or assignment operator. */
  predicate IsOperatorByte(c: Byte) {
    c == '=' || c == '!' || c == '<' || c == '>'
  }

  /** The classes the scanners dispatch on are pairwise disjoint. */
  lemma ClassesDisjoint(c: Byte)
    ensures IsDigit(c) ==> !IsLetterOrUnderscore(c)
    ensures IsWhitespace(c) ==> !IsIdentChar(c) && c != '\n'
    ensures IsIdentChar(c) ==> c != '\n' && c != '"' && c != '.' && c != '/'
  {
  }
}
