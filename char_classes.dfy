/**
 * The character classes that the regular expressions of the system use,
 * restricted to ASCII.  JavaScript's `\s` and Python's `\s` agree on ASCII
 * except for the four information separators 0x1C..0x1F, which Python
 * counts as whitespace (`str.isspace()`) and JavaScript does not.
 */
module CharClasses {

  /** `\d` */
  predicate IsDigit(c: char) { '0' <= c <= '9' }

  /** `[A-Z]` */
  predicate IsUpper(c: char) { 'A' <= c <= 'Z' }

  /** `[a-z]` */
  predicate IsLower(c: char) { 'a' <= c <= 'z' }

  /** Python's `\w`: letters, digits and the underscore. */
  predicate IsWordChar(c: char) { IsDigit(c) || IsUpper(c) || IsLower(c) || c == '_' }

  /** JavaScript's `\s`: tab, line feed, vertical tab, form feed, carriage return, space. */
  predicate IsJsSpace(c: char) { c == ' ' || '\t' <= c <= '\r' }

  /** Python's `\s` and `str.isspace()`: JavaScript's set plus 0x1C..0x1F. */
  predicate IsPySpace(c: char) { IsJsSpace(c) || '\U{1C}' <= c <= '\U{1F}' }
}
