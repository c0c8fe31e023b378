/** The growable bit set of flytestdlib/bitarray/bitset.go. */
module BitSets {
  import opened Words
  import opened BitPositions

  /** A set of bits kept in 32-bit blocks; the block array is replaced when it grows. */
  class BitSet {
    var blocks: array<nat>

    predicate Valid()
      reads this, blocks
    {
      forall k :: 0 <= k < blocks.Length ==> blocks[k] < TWO_32
    }

    predicate Has(k: nat)
      reads this, blocks
    {
      HasBit(blocks[..], k)
    }

    /** NewBitSet: the least number of blocks that holds `desiredCap` bits, all unset. */
    constructor (desiredCap: nat)
      ensures Valid() && fresh(blocks)
      ensures desiredCap <= blocks.Length * BLOCK_SIZE < desiredCap + BLOCK_SIZE
      ensures forall k: nat :: !Has(k)
    {
      var size := desiredCap / BLOCK_SIZE;
      if desiredCap % BLOCK_SIZE != 0 {
        size := size + 1;
      }
      blocks := new nat[size](_ => 0);
      new;
      ZeroBlocks([], blocks[..]);
    }

    /** The copy made by DeepCopyInto: same blocks, its own storage. */
    constructor Copy(from: BitSet)
      requires from.Valid()
      ensures Valid() && fresh(blocks)
      ensures blocks[..] == from.blocks[..]
    {
      var copy := new nat[from.blocks.Length];
      forall k | 0 <= k < copy.Length {
        copy[k] := from.blocks[k];
      }
      blocks := copy;
    }

    /** Sets bit i, growing the set first when i lies beyond its end. */
    method Set(i: nat)
      requires Valid()
      modifies this, blocks
      ensures Valid() && (blocks == old(blocks) || fresh(blocks))
      ensures forall k: nat :: Has(k) == (k == i || old(Has(k)))
    {
      if blocks.Length < i / BLOCK_SIZE + 1 {
        Grow(i / BLOCK_SIZE + 1);
      }
      ghost var before := blocks[..];
      var n := i / BLOCK_SIZE;
      WordFits(blocks[n], i % BLOCK_SIZE);
      blocks[n] := Or(blocks[n], Mask(i % BLOCK_SIZE));
      assert blocks[..] == before[n := Or(before[n], Mask(i % BLOCK_SIZE))];
      forall k: nat ensures Has(k) == (k == i || HasBit(before, k)) {
        BitUpdate(before, i, k);
      }
    }

    /** `append(*s, make([]Block, extra)...)` */
    method Grow(extra: nat)
      requires Valid()
      modifies this
      ensures Valid() && fresh(blocks) && blocks.Length == old(blocks.Length) + extra
      ensures forall k: nat :: Has(k) == old(Has(k))
    {
      var grown := new nat[blocks.Length + extra];
      forall k | 0 <= k < grown.Length {
        grown[k] := if k < blocks.Length then blocks[k] else 0;
      }
      ZeroBlocks(blocks[..], grown[..]);
      blocks := grown;
    }

    /** Clears bit i; a bit beyond the end is already clear. */
    method Clear(i: nat)
      requires Valid()
      modifies blocks
      ensures Valid()
      ensures forall k: nat :: Has(k) == (k != i && old(Has(k)))
    {
      if blocks.Length >= i / BLOCK_SIZE + 1 {
        ghost var before := blocks[..];
        var n := i / BLOCK_SIZE;
        AndNotFits(blocks[n], Mask(i % BLOCK_SIZE));
        blocks[n] := AndNot(blocks[n], Mask(i % BLOCK_SIZE));
        assert blocks[..] == before[n := AndNot(before[n], Mask(i % BLOCK_SIZE))];
        forall k: nat ensures Has(k) == (k != i && HasBit(before, k)) {
          BitUpdate(before, i, k);
        }
      }
    }

    method IsSet(i: nat) returns (r: bool)
      ensures r == Has(i)
    {
      if blocks.Length < i / BLOCK_SIZE + 1 {
        return false;
      }
      MaskTests(blocks[i / BLOCK_SIZE], i % BLOCK_SIZE);
      return And(blocks[i / BLOCK_SIZE], Mask(i % BLOCK_SIZE)) != 0;
    }
  }

  lemma WordFits(b: nat, r: nat)
    requires b < TWO_32 && r < BLOCK_SIZE
    ensures Or(b, Mask(r)) < TWO_32
  {
    MaskOf32And64();
    MaskMonotone(r, 32);
    OrFits(b, Mask(r), 32);
  }
}
