// The free bitmap's bits (mCertiKOS/kern/fs/block.c): bit k of a block is bit
// k % 8 of byte k / 8.
module Bitmap {
  import opened Blocks

  const BPB := 4096

  // Bit k of x: x & (1 << k).
  predicate Bit(x: nat, k: nat) {
    if k == 0 then x % 2 == 1 else Bit(x / 2, k - 1)
  }

  // x with bit k inverted: x | (1 << k) when it is clear, x & ~(1 << k) when set.
  function Flip(x: nat, k: nat): nat {
    if k == 0 then (if x % 2 == 1 then x - 1 else x + 1)
    else 2 * Flip(x / 2, k - 1) + x % 2
  }

  function Power(m: nat): nat {
    if m == 0 then 1 else 2 * Power(m - 1)
  }

  lemma {:induction false} FlipBounded(x: nat, k: nat, m: nat)
    requires k < m && x < Power(m)
    ensures Flip(x, k) < Power(m)
  {
    var p := Power(m - 1);
    assert Power(m) == 2 * p;
    if k > 0 {
      FlipBounded(x / 2, k - 1, m - 1);
      assert Flip(x / 2, k - 1) <= p - 1;
    }
    hide Power;
  }

  lemma {:induction false} FlipBit(x: nat, k: nat, l: nat)
    ensures Bit(Flip(x, k), l) <==> (if l == k then !Bit(x, k) else Bit(x, l))
  {
    if k > 0 {
      assert Flip(x, k) / 2 == Flip(x / 2, k - 1);
      if l > 0 {
        FlipBit(x / 2, k - 1, l - 1);
      }
    } else if l > 0 {
      assert Flip(x, 0) / 2 == x / 2;
    }
  }

  predicate BitAt(b: Block, k: nat)
    requires k < BPB
  {
    Bit(b[k / 8], k % 8)
  }

  function FlipIn(b: Block, k: nat): Block
    requires k < BPB
  {
    FlipBounded(b[k / 8], k % 8, 8);
    b[k / 8 := Flip(b[k / 8], k % 8)]
  }

  lemma FlipInBit(b: Block, k: nat, l: nat)
    requires k < BPB && l < BPB
    ensures BitAt(FlipIn(b, k), l) <==> (if l == k then !BitAt(b, k) else BitAt(b, l))
  {
    FlipBit(b[k / 8], k % 8, l % 8);
  }
}
