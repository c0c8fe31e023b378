/** Bit positions spread over a sequence of 32-bit blocks. */
module BitPositions {
  import opened Words

  const BLOCK_SIZE := 32

  /** Bit i; bits beyond the last block read as unset. */
  predicate HasBit(blocks: seq<nat>, i: nat) {
    i / BLOCK_SIZE < |blocks| && On(blocks[i / BLOCK_SIZE], i % BLOCK_SIZE)
  }

  lemma SamePosition(i: nat, k: nat)
    ensures i / BLOCK_SIZE == k / BLOCK_SIZE && i % BLOCK_SIZE == k % BLOCK_SIZE <==> i == k
  {
    assert i == BLOCK_SIZE * (i / BLOCK_SIZE) + i % BLOCK_SIZE;
    assert k == BLOCK_SIZE * (k / BLOCK_SIZE) + k % BLOCK_SIZE;
  }

  /** `|=` and `&^=` with the mask of bit i change that bit and no other bit of any block. */
  lemma BitUpdate(blocks: seq<nat>, i: nat, k: nat)
    requires i / BLOCK_SIZE < |blocks|
    ensures
      var n, m := i / BLOCK_SIZE, Mask(i % BLOCK_SIZE);
      && HasBit(blocks[n := Or(blocks[n], m)], k) == (k == i || HasBit(blocks, k))
      && HasBit(blocks[n := AndNot(blocks[n], m)], k) == (k != i && HasBit(blocks, k))
  {
    var n, m := i / BLOCK_SIZE, Mask(i % BLOCK_SIZE);
    SamePosition(i, k);
    OrBits(blocks[n], m, k % BLOCK_SIZE);
    AndNotBits(blocks[n], m, k % BLOCK_SIZE);
    MaskBits(i % BLOCK_SIZE, k % BLOCK_SIZE);
  }

  /** Appending zero blocks changes no bit. */
  lemma ZeroBlocks(small: seq<nat>, large: seq<nat>)
    requires |small| <= |large|
    requires forall k :: 0 <= k < |small| ==> large[k] == small[k]
    requires forall k :: |small| <= k < |large| ==> large[k] == 0
    ensures forall k: nat :: HasBit(large, k) == HasBit(small, k)
  {
    forall k: nat
      ensures HasBit(large, k) == HasBit(small, k)
    {
      ZeroIsOff(k % BLOCK_SIZE);
      var n := k / BLOCK_SIZE;
      if n < |small| {
        assert large[n] == small[n];
      } else if n < |large| {
        assert large[n] == 0;
      }
    }
  }
}
