/**
 * The attachment picker's index: a draw `d` from [0, n), as returned by
 * `rand.Intn(n)`, with the draw 0 moved to 1.
 */
module Picker {

  function Max(a: int, b: int): int {
    if a < b then b else a
  }

  /** The image index for draw `d` out of `n` images. */
  function ImageIndex(d: nat, n: nat): (i: nat)
    requires d < n
    ensures 1 <= i <= Max(1, n - 1)
    ensures i != 0
    ensures d != 0 ==> i == d
    ensures i == 1 <==> d <= 1
    ensures n == 1 ==> i == n
  {
    if d == 0 then 1 else d
  }

  /** The draws that yield index `k`. */
  function Preimage(k: nat, n: nat): set<nat> {
    set d: nat | d < n && ImageIndex(d, n) == k
  }

  /** An index is reachable from some draw exactly when it lies in 1 .. max(1, n - 1). */
  lemma IndexRange(n: nat)
    requires 1 <= n
    ensures forall k: nat :: Preimage(k, n) != {} <==> 1 <= k <= Max(1, n - 1)
  {
    forall k: nat
      ensures Preimage(k, n) != {} <==> 1 <= k <= Max(1, n - 1)
    {
      if 1 <= k <= Max(1, n - 1) {
        var d := if k == 1 then 0 else k;
        assert d in Preimage(k, n);
      } else {
        forall d: nat | d < n
          ensures ImageIndex(d, n) != k
        {
        }
        assert Preimage(k, n) == {};
      }
    }
  }

  /**
   * Index 1 is hit by two draws (0 and 1) when there are at least two
   * images, every other index by exactly one: the remap doubles the weight
   * of image 1.
   */
  lemma IndexOneDoubled(n: nat, k: nat)
    requires 2 <= n
    ensures Preimage(1, n) == {0, 1} && |Preimage(1, n)| == 2
    ensures 2 <= k < n ==> Preimage(k, n) == {k} && |Preimage(k, n)| == 1
    ensures k == 0 || n <= k ==> Preimage(k, n) == {}
  {
    assert ImageIndex(0, n) == 1 && ImageIndex(1, n) == 1;
    if 2 <= k < n {
      assert ImageIndex(k, n) == k;
      assert Preimage(k, n) == {k};
    }
    if n <= k {
      forall d: nat | d < n
        ensures ImageIndex(d, n) != k
      {
      }
    }
  }
}
