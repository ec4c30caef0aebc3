/** What the JSON callbacks of the M2X client do with token text: compare
    a key's first characters with a literal (`strncmp`) and copy a string
    into a fixed buffer (`strncpy` plus a terminating NUL). */
module ParseText {
  /** `strncmp(token, lit, |lit|) == 0` for a key token, compared
      character by character.  The byte after a key's text in the
      parser's buffer is its closing quote, which no literal used here
      contains, so a shorter key never compares equal. */
  predicate HasPrefix(token: string, lit: string)
    decreases |lit|
  {
    |lit| == 0 || (|token| > 0 && token[0] == lit[0] && HasPrefix(token[1..], lit[1..]))
  }

  /** The comparison succeeds exactly when the literal begins the token. */
  lemma {:induction false} HasPrefixIsPrefix(token: string, lit: string)
    ensures HasPrefix(token, lit) <==> |lit| <= |token| && token[..|lit|] == lit
    decreases |lit|
  {
    if |lit| > 0 && |token| > 0 {
      HasPrefixIsPrefix(token[1..], lit[1..]);
      if token[0] == lit[0] && |lit| <= |token| {
        assert token[..|lit|] == [token[0]] + token[1..][..|lit| - 1];
        assert lit == [lit[0]] + lit[1..];
      }
    }
  }

  /** The C string left in a buffer of `n + 1` bytes after copying at most
      `n` characters of the token and terminating it. */
  function Truncate(token: string, n: nat): (s: string)
    ensures |s| <= n && |s| <= |token| && s == token[..|s|]
    ensures |token| <= n ==> s == token
    ensures |token| >= n ==> |s| == n
  {
    if |token| <= n then token else token[..n]
  }
}
