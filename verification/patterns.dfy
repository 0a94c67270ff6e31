/** The regular expressions of the core, each written out as a predicate over
    characters. */
module Patterns {
  import opened Text

  predicate IsDigit(c: char) {
    '0' <= c <= '9'
  }

  /** `\w`: an ASCII letter, a digit or an underscore. */
  predicate IsWordChar(c: char) {
    ('a' <= c <= 'z') || ('A' <= c <= 'Z') || IsDigit(c) || c == '_'
  }

  /** `[a-zA-Z0-9_-]`. */
  predicate IsUsernameChar(c: char) {
    IsWordChar(c) || c == '-'
  }

  /** `/^[a-zA-Z0-9_-]+$/`. */
  predicate UsernameChars(s: string) {
    |s| > 0 && forall k :: 0 <= k < |s| ==> IsUsernameChar(s[k])
  }

  /** `/^\d{10}$/`. */
  predicate TenDigits(s: string) {
    |s| == 10 && forall k :: 0 <= k < |s| ==> IsDigit(s[k])
  }

  /** `/\S+@\S+\.\S+/.test(s)`: somewhere in `s` an `@` with a non-blank
      character before it, followed by a run of non-blank characters, a `.`,
      and a non-blank character. The expression is not anchored. */
  predicate LooseEmail(s: string) {
    exists i, j :: 0 < i && i + 1 < j && j + 1 < |s| && LooseEmailAt(s, i, j)
  }

  /** The `@` of a loose email match sits at `i` and its `.` at `j`. */
  predicate LooseEmailAt(s: string, i: int, j: int)
    requires 0 < i && i + 1 < j && j + 1 < |s|
  {
    && s[i] == '@'
    && s[j] == '.'
    && !IsSpace(s[i - 1])
    && !IsSpace(s[j + 1])
    && NoSpace(s[i + 1..j])
  }

  /** `\w+([\.-]?\w+)*`: word characters with single dots or hyphens between them. */
  predicate DottedWords(s: string) {
    && |s| > 0
    && IsWordChar(s[0])
    && IsWordChar(s[|s| - 1])
    && (forall k :: 0 <= k < |s| ==> IsWordChar(s[k]) || s[k] == '.' || s[k] == '-')
    && (forall k :: 0 <= k < |s| - 1 ==> IsWordChar(s[k]) || IsWordChar(s[k + 1]))
  }

  /** `\w+([\.-]?\w+)*(\.\w{2,3})+`: dotted words whose last label follows a
      dot and has two or three word characters. */
  predicate EmailDomain(d: string) {
    && DottedWords(d)
    && exists k :: 0 <= k < |d| && LastLabelAt(d, k)
  }

  /** The last label of `d` follows the dot at `k` and has two or three word characters. */
  predicate LastLabelAt(d: string, k: int)
    requires 0 <= k < |d|
  {
    d[k] == '.' && 2 <= |d| - k - 1 <= 3 && forall m :: k < m < |d| ==> IsWordChar(d[m])
  }

  /** `/^\w+([\.-]?\w+)*@\w+([\.-]?\w+)*(\.\w{2,3})+$/`, the account email format. */
  predicate AccountEmail(s: string) {
    exists a :: 0 <= a < |s| && s[a] == '@' && DottedWords(s[..a]) && EmailDomain(s[a + 1..])
  }

  /** The suffix the sign-up, sign-in and reset forms demand. */
  const GmailSuffix := "@gmail.com"

  /** `/@gmail\.com$/.test(s)` and `s.endsWith('@gmail.com')`. */
  predicate IsGmail(s: string) {
    EndsWith(s, GmailSuffix)
  }
}
