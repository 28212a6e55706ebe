/** What several modules need of sequences. */
module Sequences {
  function Reversed<T>(items: seq<T>): (r: seq<T>)
    ensures |r| == |items|
    ensures forall k | 0 <= k < |r| :: r[k] == items[|items| - 1 - k]
  {
    seq(|items|, k requires 0 <= k < |items| => items[|items| - 1 - k])
  }

  lemma {:induction false} SameMiddle<T>(a: seq<T>, x: seq<T>, y: seq<T>, b: seq<T>)
    requires |x| == |y|
    ensures a + x + b == a + y + b <==> x == y
  {
    if a + x + b == a + y + b {
      assert x == (a + x + b)[|a|..|a| + |x|];
      assert y == (a + y + b)[|a|..|a| + |y|];
    }
  }
}
