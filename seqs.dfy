/** Sequence helpers shared by the bounded collections of the extension. */
module Seqs {

  /** The last `n` elements of `s` (all of them when there are fewer): what a buffer that drops its oldest entry on overflow keeps. */
  function Newest<T>(s: seq<T>, n: nat): (r: seq<T>)
    ensures |r| <= n && |r| <= |s|
    ensures |r| == if |s| <= n then |s| else n
    ensures r == s[|s| - |r|..]
  {
    if |s| <= n then s else s[|s| - n..]
  }

  /** Keeping the newest `n` after each append is keeping the newest `n` once at the end. */
  lemma NewestOfNewest<T>(a: seq<T>, x: T, b: seq<T>, xb: seq<T>, n: nat)
    requires n >= 1 && |a| <= n && xb == [x] + b
    ensures Newest(Newest(a + [x], n) + b, n) == Newest(a + xb, n)
  {
    assert a + [x] + b == a + xb;
    if |a| + 1 > n {
      assert Newest(a + [x], n) + b == (a + xb)[1..];
    }
  }

  /** Concatenation regrouped, stated once for every element type. */
  lemma ConsAppend<T>(x: T, u: seq<T>, v: seq<T>)
    ensures [x] + (u + v) == ([x] + u) + v
  {
  }
}
