/**
 * The two functions of Go's `strings` package that the webhook uses, HasPrefix and ReplaceAll
 * with a one-character pattern, on `string == seq<char>`; and the two-character rewrite that
 * decoding a JSON Pointer token needs.
 */
module Strings {

  /** strings.HasPrefix: `s` starts with `prefix`. */
  predicate HasPrefix(s: string, prefix: string) {
    |prefix| <= |s| && s[..|prefix|] == prefix
  }

  /** strings.ReplaceAll(s, string(c), rep): every occurrence of the character `c` becomes `rep`. */
  function ReplaceChar(s: string, c: char, rep: string): (r: string)
    ensures forall x :: x in r ==> (x in s && x != c) || x in rep
  {
    if s == [] then []
    else (if s[0] == c then rep else [s[0]]) + ReplaceChar(s[1..], c, rep)
  }

  /**
   * Rewrites the two-character pattern `a b` to the single character `rep`, matching leftmost
   * first and without overlap; the decoding steps of section 4 of RFC 6901 are two of these.
   */
  function ReplacePair(s: string, a: char, b: char, rep: char): string
    decreases |s|
  {
    if |s| < 2 then s
    else if s[0] == a && s[1] == b then [rep] + ReplacePair(s[2..], a, b, rep)
    else [s[0]] + ReplacePair(s[1..], a, b, rep)
  }
}
