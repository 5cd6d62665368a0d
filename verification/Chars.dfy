/**
  Character classes of the parser, in strict mode.

  A byte is a `char` whose code is below 256. The classes give every char from 128 up the
  treatment the C tables give the bytes 128..255, so what is proved for all strings holds
  for all byte buffers.
 */
module Chars {

  const CR: char := '\r'
  const LF: char := '\n'

  predicate IsAlpha(c: char) {
    'a' <= c <= 'z' || 'A' <= c <= 'Z'
  }

  predicate IsNum(c: char) {
    '0' <= c <= '9'
  }

  predicate IsAlphaNum(c: char) {
    IsAlpha(c) || IsNum(c)
  }

  predicate IsHex(c: char) {
    IsNum(c) || 'a' <= c <= 'f' || 'A' <= c <= 'F'
  }

  predicate IsMark(c: char) {
    || c == '-' || c == '_' || c == '.' || c == '!' || c == '~'
    || c == '*' || c == '\'' || c == '(' || c == ')'
  }

  predicate IsUserinfoChar(c: char) {
    || IsAlphaNum(c) || IsMark(c)
    || c == '%' || c == ';' || c == ':' || c == '&' || c == '=' || c == '+' || c == '$' || c == ','
  }

  predicate IsHostChar(c: char) {
    IsAlphaNum(c) || c == '.' || c == '-'
  }

  /** Printable ASCII other than '#' and '?': the bits set in `normal_url_char`. */
  predicate IsUrlChar(c: char) {
    '!' <= c <= '~' && c != '#' && c != '?'
  }

  /** The bytes that may stand in a header value. */
  predicate IsHeaderChar(c: char) {
    c == CR || c == LF || c == '\t' || (c > '\U{1F}' && c != '\U{7F}')
  }

  /** The separators and control characters are not tokens; nothing from 127 up is. */
  predicate IsToken(c: char) {
    && '!' <= c <= '~'
    && c != '"' && c != '(' && c != ')' && c != ',' && c != '/'
    && c != ':' && c != ';' && c != '<' && c != '=' && c != '>' && c != '?' && c != '@'
    && c != '[' && c != '\\' && c != ']' && c != '{' && c != '}'
  }

  /** `c | 0x20` on one byte: the bit is already set in every other block of 32 codes. */
  function Lower(c: char): char {
    if c < '\U{20}' || '\U{40}' <= c < '\U{60}' || '\U{80}' <= c < '\U{A0}' || '\U{C0}' <= c < '\U{E0}'
    then (c as int + 32) as char
    else c
  }

  /** The `tokens` table: a token in lower case, or NUL for everything else. */
  function TokenOf(c: char): char {
    if 'A' <= c <= 'Z' then (c as int + 32) as char
    else if IsToken(c) then c
    else '\0'
  }

  /** The value of a decimal digit. */
  function DigitOf(c: char): (d: nat)
    requires IsNum(c)
    ensures d <= 9
  {
    c as int - '0' as int
  }

  /**
    The `unhex` table. Only its first 128 entries are initialised, so the bytes from 128
    up read as the digit 0 and not as "no digit".
   */
  function Unhex(c: char): (d: int)
    ensures -1 <= d <= 15
  {
    if IsNum(c) then c as int - '0' as int
    else if 'a' <= c <= 'f' then c as int - 'a' as int + 10
    else if 'A' <= c <= 'F' then c as int - 'A' as int + 10
    else if c >= '\U{80}' then 0
    else -1
  }
}
