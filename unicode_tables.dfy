/** The .NET character queries the dialogue code relies on: `char.IsLetter`,
    `char.IsDigit`, `char.IsPunctuation` and `char.ToLower`. Their full Unicode
    category tables are not part of this model; they are a parameter, and
    `WellFormed` states the few facts about ASCII, the Hangul syllable block,
    '~' and the space that the properties of the sound classifier rely on. */
module Unicode {
  import Hangul

  datatype CharTables = CharTables(
    isLetter: char -> bool,
    isDigit: char -> bool,
    isPunctuation: char -> bool,
    toLower: char -> char)

  predicate IsAsciiUpper(c: char) { 'A' <= c <= 'Z' }

  predicate IsAsciiLower(c: char) { 'a' <= c <= 'z' }

  predicate IsAsciiDigit(c: char) { '0' <= c <= '9' }

  function AsciiLower(c: char): (r: char)
    requires IsAsciiUpper(c)
    ensures IsAsciiLower(r)
  {
    (c as int + 32) as char
  }

  /** The marks DialogueManager.GetPunctuationSound names, except '~'
      (Unicode puts '~' among the math symbols, not the punctuation). */
  predicate IsNamedPunctuation(c: char)
  {
    || c == '.' || c == ',' || c == ';' || c == ':' || c == '?' || c == '!'
    || c == '-' || c == '"' || c == '\'' || c == '(' || c == ')'
    || c == '[' || c == ']' || c == '{' || c == '}'
  }

  /** ASCII characters in the Unicode punctuation categories (Pc, Pd, Ps, Pe,
      Pi, Pf, Po); the other printable ASCII marks are symbols. */
  predicate IsAsciiPunctuation(c: char)
  {
    || c == '!' || c == '"' || c == '#' || c == '%' || c == '&' || c == '\''
    || c == '(' || c == ')' || c == '*' || c == ',' || c == '-' || c == '.'
    || c == '/' || c == ':' || c == ';' || c == '?' || c == '@' || c == '['
    || c == '\\' || c == ']' || c == '_' || c == '{' || c == '}'
  }

  /** What .NET (in a culture whose lower-casing of ASCII is the usual one)
      answers for the characters the classifier's properties mention. */
  ghost predicate WellFormed(t: CharTables)
  {
    && (forall c :: IsAsciiDigit(c) ==> t.isDigit(c))
    && (forall c :: IsAsciiUpper(c) || IsAsciiLower(c) ==> t.isLetter(c) && !t.isDigit(c))
    && (forall c :: IsAsciiUpper(c) ==> t.toLower(c) == AsciiLower(c))
    && (forall c :: IsAsciiLower(c) ==> t.toLower(c) == c)
    && (forall c :: Hangul.IsSyllable(c) ==> t.isLetter(c) && !t.isDigit(c))
    && (forall c :: IsNamedPunctuation(c) ==> t.isPunctuation(c) && !t.isLetter(c) && !t.isDigit(c))
    && !t.isLetter('~') && !t.isDigit('~') && !t.isPunctuation('~')
    && !t.isLetter(' ') && !t.isDigit(' ') && !t.isPunctuation(' ')
  }

  /** The .NET answers restricted to ASCII and the Hangul syllable block:
      ASCII letters and Hangul syllables are letters, '0'..'9' are the digits,
      and the ASCII characters of the Unicode punctuation categories are
      punctuation. */
  function AsciiHangulTables(): (t: CharTables)
    ensures WellFormed(t)
  {
    var t := CharTables(IsAsciiHangulLetter, IsAsciiDigit, IsAsciiPunctuation, AsciiToLower);
    assert forall c :: IsNamedPunctuation(c) ==> t.isPunctuation(c) && !t.isLetter(c) && !t.isDigit(c) by {
      forall c | IsNamedPunctuation(c) ensures IsAsciiPunctuation(c) && !IsAsciiHangulLetter(c) && !IsAsciiDigit(c) { }
    }
    t
  }

  predicate IsAsciiHangulLetter(c: char)
  {
    IsAsciiUpper(c) || IsAsciiLower(c) || Hangul.IsSyllable(c)
  }

  function AsciiToLower(c: char): char
  {
    if IsAsciiUpper(c) then AsciiLower(c) else c
  }
}
