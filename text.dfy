/** The two functions of Go's `strings` package that the proxy's path logic uses. */
module Text {

  /** strings.HasPrefix: `s` is at least as long as `prefix` and begins with it. */
  predicate HasPrefix(s: string, prefix: string)
  {
    |prefix| <= |s| && s[..|prefix|] == prefix
  }

  /** strings.TrimPrefix: `s` without a leading `prefix`, or `s` itself when it does not begin with one. */
  function TrimPrefix(s: string, prefix: string): (r: string)
    ensures HasPrefix(s, prefix) ==> prefix + r == s
    ensures !HasPrefix(s, prefix) ==> r == s
    ensures |r| <= |s|
  {
    if HasPrefix(s, prefix) then s[|prefix|..] else s
  }

  /** HasPrefix holds exactly when `s` splits as `prefix` followed by something. */
  lemma HasPrefixIff(s: string, prefix: string)
    ensures HasPrefix(s, prefix) <==> exists t :: s == prefix + t
  {
    if HasPrefix(s, prefix) {
      assert s == prefix + s[|prefix|..];
    }
    if t :| s == prefix + t {
      assert s[..|prefix|] == prefix;
    }
  }
}
