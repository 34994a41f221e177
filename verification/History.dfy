module History {
  /** The latest n elements of s. */
  function LastN<T>(s: seq<T>, n: nat): seq<T> {
    if |s| > n then s[|s|-n..] else s
  }

  /** Trimming before appending changes nothing. */
  lemma {:induction false} LastNAppend<T>(s: seq<T>, x: seq<T>, n: nat)
    ensures LastN(LastN(s, n) + x, n) == LastN(s + x, n)
  {
    if |s| > n {
      var k := |s| - n;
      assert (s + x)[k..] == s[k..] + x;
      assert |s[k..] + x| == n + |x|;
      assert LastN(s + x, n) == (s + x)[k + |x|..] == (s + x)[k..][|x|..];
      assert LastN(s[k..] + x, n) == (s[k..] + x)[|x|..];
    }
  }
}
