/** Prefix and suffix tests on strings, as Go's strings.HasPrefix / HasSuffix. */
module Strings {

  predicate HasPrefix(s: string, prefix: string) {
    |prefix| <= |s| && s[..|prefix|] == prefix
  }

  predicate HasSuffix(s: string, suffix: string) {
    |suffix| <= |s| && s[|s| - |suffix|..] == suffix
  }

  /** Two strings that differ at the k-th character from the end cannot be suffixes of each other. */
  lemma NotSuffixWhenDiffer(a: string, b: string, k: nat)
    requires 1 <= k <= |a| && k <= |b|
    requires a[|a| - k] != b[|b| - k]
    ensures !HasSuffix(a, b) && !HasSuffix(b, a)
  {
    if |b| <= |a| {
      var tail := a[|a| - |b|..];
      assert tail[|b| - k] == a[|a| - k];
      assert tail != b;
    }
    if |a| <= |b| {
      var tail := b[|b| - |a|..];
      assert tail[|a| - k] == b[|b| - k];
      assert tail != a;
    }
  }

  /** A suffix of `u + s` is either a suffix of `s` or has `s` as its own suffix. */
  lemma SuffixOfConcat(u: string, s: string, x: string)
    requires HasSuffix(u + s, x)
    ensures |x| <= |s| ==> HasSuffix(s, x)
    ensures |s| <= |x| ==> HasSuffix(x, s)
  {
    var w := u + s;
    if |x| <= |s| {
      assert s[|s| - |x|..] == w[|w| - |x|..];
    } else {
      assert x[|x| - |s|..] == w[|w| - |s|..];
      assert w[|w| - |s|..] == s;
    }
  }

  /** `p + x` starts with `p`, and dropping `p` leaves `x`. */
  lemma PrefixOfConcat(p: string, x: string)
    ensures HasPrefix(p + x, p) && (p + x)[|p|..] == x
  {
  }

  /** A string ending with `suffix` is what precedes it followed by `suffix`. */
  lemma SplitAtSuffix(s: string, suffix: string)
    requires HasSuffix(s, suffix)
    ensures s == s[..|s| - |suffix|] + suffix
  {
  }
}
