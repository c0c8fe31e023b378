/** Items of a fixed bit width read out of a bit sequence, most significant bit first. */
module PackedItems {
  import opened Words
  import opened BitPositions

  /** bitsNeeded: the least width whose values include maxValue. */
  function BitsNeeded(maxValue: nat): nat {
    if maxValue == 0 then 0 else 1 + BitsNeeded(maxValue / 2)
  }

  lemma {:induction false} BitsNeededIsCeilLog(maxValue: nat, k: nat)
    ensures maxValue < Mask(k) <==> BitsNeeded(maxValue) <= k
  {
    if maxValue > 0 && k > 0 {
      BitsNeededIsCeilLog(maxValue / 2, k - 1);
    }
  }

  function ItemAt(blocks: seq<nat>, base: nat, size: nat): nat {
    if size == 0 then 0
    else 2 * ItemAt(blocks, base, size - 1) + (if HasBit(blocks, base + size - 1) then 1 else 0)
  }

  lemma {:induction false} ItemDigits(blocks: seq<nat>, base: nat, size: nat, t: nat)
    ensures On(ItemAt(blocks, base, size), t) == (t < size && HasBit(blocks, base + size - 1 - t))
  {
    if size == 0 {
      ZeroIsOff(t);
    } else {
      var rest := ItemAt(blocks, base, size - 1);
      assert ItemAt(blocks, base, size) / 2 == rest;
      if t > 0 {
        ItemDigits(blocks, base, size - 1, t - 1);
      }
    }
  }

  /** An item depends on its own bits only. */
  lemma {:induction false} ItemFrame(before: seq<nat>, after: seq<nat>, base: nat, size: nat)
    requires forall k: nat :: base <= k < base + size ==> HasBit(before, k) == HasBit(after, k)
    ensures ItemAt(before, base, size) == ItemAt(after, base, size)
  {
    if size > 0 {
      ItemFrame(before, after, base, size - 1);
    }
  }

  lemma ItemIs(blocks: seq<nat>, base: nat, size: nat, value: nat)
    requires value < Mask(size)
    requires forall t: nat :: t < size ==> HasBit(blocks, base + size - 1 - t) == On(value, t)
    ensures ItemAt(blocks, base, size) == value
  {
    forall t: nat ensures On(ItemAt(blocks, base, size), t) == On(value, t) {
      ItemDigits(blocks, base, size, t);
      if t >= size {
        HighDigitsOff(value, size, t);
      }
    }
    SameDigits(ItemAt(blocks, base, size), value);
  }

  lemma ItemHasDigits(blocks: seq<nat>, base: nat, size: nat, item: nat)
    requires forall t: nat :: On(item, t) == (t < size && HasBit(blocks, base + size - 1 - t))
    ensures item == ItemAt(blocks, base, size)
  {
    forall t: nat ensures On(item, t) == On(ItemAt(blocks, base, size), t) {
      ItemDigits(blocks, base, size, t);
    }
    SameDigits(item, ItemAt(blocks, base, size));
  }

  lemma ZeroDigits()
    ensures forall t: nat :: !On(0, t)
  {
    forall t: nat ensures !On(0, t) {
      ZeroIsOff(t);
    }
  }

  function Items(blocks: seq<nat>, size: nat, count: nat): (items: seq<nat>)
    ensures |items| == count
  {
    seq(count, i requires 0 <= i => ItemAt(blocks, i * size, size))
  }

  /** The bit ranges of two items do not meet. */
  lemma {:induction false} Apart(i: nat, j: nat, size: nat)
    requires i < j
    ensures i * size + size <= j * size
  {
    assert j * size == (j - 1) * size + size;
    if i < j - 1 {
      Apart(i, j - 1, size);
    }
  }

  /** Or-ing in the mask of digit n switches exactly that digit on. */
  lemma OrMask(a: nat, n: nat)
    ensures forall t: nat :: On(Or(a, Mask(n)), t) == (On(a, t) || t == n)
  {
    forall t: nat ensures On(Or(a, Mask(n)), t) == (On(a, t) || t == n) {
      OrBits(a, Mask(n), t);
      MaskBits(n, t);
    }
  }

  lemma {:induction false} AndCommutes(a: nat, b: nat)
    ensures And(a, b) == And(b, a)
  {
    if a > 0 && b > 0 {
      AndCommutes(a / 2, b / 2);
    }
  }

  /** `x <<= 1` moves the mask of a digit below 63 to the next one. */
  lemma NextMask(n: nat)
    requires n < 63
    ensures ShiftLeft64(Mask(n)) == Mask(n + 1)
  {
    MaskOf32And64();
    MaskMonotone(n + 1, 64);
  }

  lemma WriteOneItem(before: seq<nat>, after: seq<nat>, size: nat, count: nat, index: nat, base: nat, value: nat)
    requires index < count && value < Mask(size) && base == index * size
    requires forall k: nat ::
               HasBit(after, k) == if base <= k < base + size then On(value, base + size - 1 - k) else HasBit(before, k)
    ensures Items(after, size, count) == Items(before, size, count)[index := value]
  {
    forall j: nat | j < count
      ensures ItemAt(after, j * size, size) == if j == index then value else ItemAt(before, j * size, size)
    {
      if j == index {
        ItemIs(after, base, size, value);
      } else {
        if j < index {
          Apart(j, index, size);
        } else {
          Apart(index, j, size);
        }
        ItemFrame(before, after, j * size, size);
      }
    }
  }

  /** The items after a list of writes, in order. */
  function AfterWrites(items: seq<nat>, writes: seq<(nat, nat)>): (r: seq<nat>)
    requires forall k :: 0 <= k < |writes| ==> writes[k].0 < |items|
    ensures |r| == |items|
  {
    if writes == [] then items
    else
      var n := |writes| - 1;
      AfterWrites(items, writes[..n])[writes[n].0 := writes[n].1]
  }

  /** Each slot ends with the last value written to it, and a slot never written keeps its own. */
  lemma {:induction false} LastWriteWins(items: seq<nat>, writes: seq<(nat, nat)>, i: nat)
    requires forall k :: 0 <= k < |writes| ==> writes[k].0 < |items|
    requires i < |items|
    ensures (forall k :: 0 <= k < |writes| ==> writes[k].0 != i) ==> AfterWrites(items, writes)[i] == items[i]
    ensures forall k :: 0 <= k < |writes| && writes[k].0 == i
                        && (forall j :: k < j < |writes| ==> writes[j].0 != i)
                        ==> AfterWrites(items, writes)[i] == writes[k].1
  {
    if writes != [] {
      var n := |writes| - 1;
      LastWriteWins(items, writes[..n], i);
      forall k | 0 <= k < |writes| && writes[k].0 == i && (forall j :: k < j < |writes| ==> writes[j].0 != i)
        ensures AfterWrites(items, writes)[i] == writes[k].1
      {
        if k < n {
          assert writes[..n][k] == writes[k];
          assert writes[n].0 != i;
        }
      }
    }
  }
}
