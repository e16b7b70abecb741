/** Option and Result, used for JavaScript's `null`-or-value results and for thrown errors. */
module Common {

  datatype Option<+T> = None | Some(value: T)

  /** The normal completion of an expression (Ok) or the exception it throws (Err). */
  datatype Result<+T, +E> = Ok(value: T) | Err(error: E)

  /** Whether `p` is a prefix of `s`. */
  predicate StartsWith(s: string, p: string)
  {
    |p| <= |s| && s[..|p|] == p
  }

  /** `xs.join(sep)` on strings. */
  function JoinStrings(xs: seq<string>, sep: string): string
  {
    if xs == [] then ""
    else if |xs| == 1 then xs[0]
    else JoinStrings(xs[..|xs| - 1], sep) + sep + xs[|xs| - 1]
  }

  /** A joined list starts with its first string. */
  lemma {:induction false} JoinStringsHead(xs: seq<string>, sep: string)
    ensures xs != [] ==> StartsWith(JoinStrings(xs, sep), xs[0])
  {
    if |xs| > 1 {
      var init := xs[..|xs| - 1];
      JoinStringsHead(init, sep);
      var j := JoinStrings(init, sep);
      assert (j + sep + xs[|xs| - 1])[..|xs[0]|] == j[..|xs[0]|];
    }
  }

  /** Joining one more string appends the separator and that string, and nothing else. */
  lemma JoinStringsSnoc(xs: seq<string>, x: string, sep: string)
    requires xs != []
    ensures JoinStrings(xs + [x], sep) == JoinStrings(xs, sep) + sep + x
  {
    assert (xs + [x])[..|xs|] == xs;
  }
}
