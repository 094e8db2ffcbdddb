/**
 * The integer facts behind progressive accumulation: the `uint` sample
 * counter that is passed to the blend shader and then incremented, and the
 * size of the dispatch grid.
 */
module Accumulation {
  import opened Numerics

  /** `_currentSample++` on a C# `uint`: wraps to 0 after 2^32 - 1. */
  function Increment(n: uint32): (r: uint32)
    ensures n as int + 1 < UInt32Modulus ==> r as int == n as int + 1
    ensures n as int + 1 == UInt32Modulus ==> r == 0
  {
    ((n as int + 1) % UInt32Modulus) as uint32
  }

  /** The counter after `k` rendered frames without any reset. */
  function AfterFrames(n: uint32, k: nat): uint32 {
    if k == 0 then n else Increment(AfterFrames(n, k - 1))
  }

  /** Each undisturbed frame adds exactly one to the counter, modulo 2^32. */
  lemma {:induction false} AfterFramesCounts(n: uint32, k: nat)
    ensures AfterFrames(n, k) as int == (n as int + k) % UInt32Modulus
  {
    if k > 0 {
      var a := n as int + k - 1;
      var prev := AfterFrames(n, k - 1);
      AfterFramesCounts(n, k - 1);
      assert prev as int == a % UInt32Modulus;
      ModSuccessor(a);
      assert AfterFrames(n, k) as int == (prev as int + 1) % UInt32Modulus;
    }
  }

  lemma ModSuccessor(a: nat)
    ensures (a % UInt32Modulus + 1) % UInt32Modulus == (a + 1) % UInt32Modulus
  {
    var q, r := a / UInt32Modulus, a % UInt32Modulus;
    assert a == q * UInt32Modulus + r;
    if r + 1 < UInt32Modulus {
      assert (a + 1) == q * UInt32Modulus + (r + 1);
    } else {
      assert (a + 1) == (q + 1) * UInt32Modulus;
    }
  }

  /**
   * After a reset, the weight handed to the blend shader on the k-th frame
   * (counting from 0) is k itself, for the first 2^32 frames.
   */
  lemma SteadyWeights(k: nat)
    requires k < UInt32Modulus
    ensures AfterFrames(0, k) as int == k
  {
    AfterFramesCounts(0, k);
  }

  /** Unity's Mathf.CeilToInt: the least integer not below `x`. */
  function CeilToInt(x: real): (r: int)
    ensures (r - 1) as real < x <= r as real
  {
    -((-x).Floor)
  }

  /** Tile edge of the kernel's thread groups. */
  const GroupSize: int := 8

  /** `Mathf.CeilToInt(size / 8.0f)`: thread groups along one axis. */
  function ThreadGroups(size: int): int {
    CeilToInt(size as real / GroupSize as real)
  }

  /**
   * The grid covers the whole axis and has no spare column of tiles:
   * 8 (g - 1) < size <= 8 g, which for a non-negative size is (size + 7) / 8.
   */
  lemma ThreadGroupsCover(size: int)
    ensures var g := ThreadGroups(size);
      && GroupSize * (g - 1) < size <= GroupSize * g
      && (size >= 0 ==> g == (size + 7) / 8 && g >= 0)
  {
    var g := ThreadGroups(size);
    var x := size as real / 8.0;
    assert (g - 1) as real < x <= g as real;
    assert size as real == 8.0 * x;
    assert (8 * (g - 1)) as real < size as real <= (8 * g) as real;
  }
}
