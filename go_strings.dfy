/**
 * The few functions of Go's `strings` package that people.go relies on.
 * A Go string is a sequence of bytes; here each character of a Dafny string stands
 * for one byte.  The needles used by people.go ('@' and '$') are single ASCII bytes.
 */
module GoStrings {

  /**
   * The index of the first occurrence of `c` in `s`, or -1.  It stands for
   * strings.Index(s, substr) with a one-byte substr, which Go hands to IndexByte.
   */
  function IndexByte(s: string, c: char): (r: int)
    ensures -1 <= r < |s|
    ensures r == -1 <==> c !in s
    ensures r >= 0 ==> s[r] == c && c !in s[..r]
  {
    if |s| == 0 then -1
    else if s[0] == c then 0
    else
      var i := IndexByte(s[1..], c);
      if i == -1 then -1
      else
        assert s[..i + 1] == [s[0]] + s[1..][..i];
        i + 1
  }

  /** strings.HasPrefix: `s` begins with every character of `prefix`, in order. */
  predicate HasPrefix(s: string, prefix: string)
    ensures HasPrefix(s, prefix) <==>
            |prefix| <= |s| && forall i :: 0 <= i < |prefix| ==> s[i] == prefix[i]
  {
    |prefix| <= |s| && s[..|prefix|] == prefix
  }

  /**
   * strings.Contains(s, substr) for a one-byte substr: Go computes it as
   * Index(s, substr) >= 0, and Index of a one-byte substr is IndexByte.
   */
  function ContainsByte(s: string, c: char): (b: bool)
    ensures b <==> c in s
  {
    IndexByte(s, c) >= 0
  }
}
