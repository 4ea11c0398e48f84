/** Character classes the scanner dispatches on. Each predicate is the ASCII part of the
    Java library method of the same purpose; characters above U+007F fall in no class. */
module Chars {

  /** Character.isWhitespace on ASCII: tab, line feed, vertical tab, form feed, carriage
      return, the four information separators U+001C..U+001F, and space. */
  predicate IsWhitespace(c: char)
  {
    ('\t' <= c <= '\r') || ('\U{1C}' <= c <= '\U{1F}') || c == ' '
  }

  /** Character.isDigit on ASCII. */
  predicate IsDigit(c: char)
  {
    '0' <= c <= '9'
  }

  /** Character.isJavaIdentifierStart on ASCII: letters, '$' and '_'. */
  predicate IsIdentifierStart(c: char)
  {
    ('a' <= c <= 'z') || ('A' <= c <= 'Z') || c == '$' || c == '_'
  }

  /** Character.isJavaIdentifierPart on ASCII: identifier starts, digits, and the
      identifier-ignorable controls U+0000..U+0008, U+000E..U+001B and U+007F. */
  predicate IsIdentifierPart(c: char)
  {
    IsIdentifierStart(c) || IsDigit(c)
    || ('\U{0}' <= c <= '\U{8}') || ('\U{E}' <= c <= '\U{1B}') || c == '\U{7F}'
  }
}
