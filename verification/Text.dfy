/** String predicates shared by the recorded-evidence checks. */
module Text {

  /** Unicode white space, as the trimming routines of the Go library see it. */
  predicate IsSpace(c: char) {
    || c == ' ' || '\t' <= c <= '\r' || c == '\U{85}' || c == '\U{A0}' || c == '\U{1680}'
    || '\U{2000}' <= c <= '\U{200A}' || c == '\U{2028}' || c == '\U{2029}' || c == '\U{202F}'
    || c == '\U{205F}' || c == '\U{3000}'
  }

  /** A string whose trimmed form is not empty. */
  predicate NotBlank(s: string) {
    exists i | 0 <= i < |s| :: !IsSpace(s[i])
  }

  predicate IdCore(c: char) {
    'a' <= c <= 'z' || '0' <= c <= '9'
  }

  predicate IdSeparator(c: char) {
    c == '.' || c == '_' || c == '-'
  }

  /** Runs of lower-case letters and digits joined by single separators, at most 96 characters. */
  predicate ValidId(s: string) {
    && 0 < |s| <= 96
    && (forall i | 0 <= i < |s| :: IdCore(s[i]) || IdSeparator(s[i]))
    && IdCore(s[0])
    && IdCore(s[|s| - 1])
    && forall i | 0 < i < |s| :: IdSeparator(s[i]) ==> IdCore(s[i - 1])
  }

  predicate HexDigit(c: char) {
    '0' <= c <= '9' || 'a' <= c <= 'f'
  }

  /** A lower-case hexadecimal SHA-256 digest. */
  predicate ValidDigest(s: string) {
    |s| == 64 && forall i | 0 <= i < |s| :: HexDigit(s[i])
  }

  /** Non-blank, at most `maximum` characters, no zero character. */
  predicate BoundedText(s: string, maximum: nat) {
    NotBlank(s) && |s| <= maximum && '\0' !in s
  }

  predicate HasScheme(s: string) {
    exists i | 0 <= i <= |s| - 3 :: s[i] == ':' && s[i + 1] == '/' && s[i + 2] == '/'
  }

  /** A one-line path that is neither a URL, the current directory nor the root. */
  predicate LocalPath(s: string) {
    && BoundedText(s, 1024) && '\r' !in s && '\n' !in s
    && !HasScheme(s) && s != "." && s != "/"
  }
}
