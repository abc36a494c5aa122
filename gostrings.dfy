/** The two operations of Go's `strings` and `bytes` packages that the
    stdlib adapter uses. Go strings are byte strings; here each `char`
    stands for one byte. */
module GoStrings {

  /** `strings.TrimPrefix` / `bytes.TrimPrefix`: drops one leading copy of
      `prefix` when `s` starts with it. */
  function TrimPrefix(s: string, prefix: string): (r: string)
    ensures prefix <= s ==> s == prefix + r
    ensures !(prefix <= s) ==> r == s
  {
    if prefix <= s then s[|prefix|..] else s
  }

  predicate EndsWithNewline(s: string) {
    |s| > 0 && s[|s| - 1] == '\n'
  }

  /** `strings.TrimRight(s, "\n")`: drops every trailing newline. The
      result is a prefix of `s`, does not end in a newline, and what was
      cut off is newlines only. */
  function TrimRightNewlines(s: string): (r: string)
    ensures r <= s
    ensures !EndsWithNewline(r)
    ensures forall k :: |r| <= k < |s| ==> s[k] == '\n'
    decreases |s|
  {
    if EndsWithNewline(s) then TrimRightNewlines(s[..|s| - 1]) else s
  }

  /** Trimming twice is trimming once. */
  lemma TrimRightNewlinesIdempotent(s: string)
    ensures TrimRightNewlines(TrimRightNewlines(s)) == TrimRightNewlines(s)
  {
  }

  /** Trailing newlines appended to a string are exactly what is trimmed. */
  lemma {:induction false} TrimRightNewlinesAppended(s: string, n: nat)
    requires !EndsWithNewline(s)
    ensures TrimRightNewlines(s + Newlines(n)) == s
    decreases n
  {
    if n > 0 {
      assert s + Newlines(n) == (s + Newlines(n - 1)) + "\n";
      assert (s + Newlines(n))[..|s + Newlines(n)| - 1] == s + Newlines(n - 1);
      TrimRightNewlinesAppended(s, n - 1);
    } else {
      assert s + Newlines(0) == s;
    }
  }

  function Newlines(n: nat): (r: string)
    ensures |r| == n
    ensures forall k :: 0 <= k < n ==> r[k] == '\n'
  {
    if n == 0 then "" else Newlines(n - 1) + "\n"
  }
}
