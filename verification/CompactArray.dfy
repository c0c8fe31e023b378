/** The packed array of flytestdlib/bitarray/compact_array.go. */
module CompactArrays {
  import opened Words
  import opened BitPositions
  import opened BitSets
  import opened PackedItems
  import opened FloatWidths

  /** `make` refuses block slices above 2^48 bytes, which bounds the size a caller can ask for. */
  const MAX_SIZE: nat := 0x8_0000_0000_0000

  class CompactArray {
    const bits: BitSet
    const itemSize: nat
    const itemsCount: nat

    predicate Valid()
      reads bits, bits.blocks
    {
      bits.Valid() && itemSize < 64 && itemsCount <= MAX_SIZE
    }

    /** The stored items, oldest index first. */
    function View(): (items: seq<nat>)
      reads bits, bits.blocks
      ensures |items| == itemsCount
    {
      Items(bits.blocks[..], itemSize, itemsCount)
    }

    constructor (log: Log2, size: nat, maxValue: nat)
      requires size <= MAX_SIZE && maxValue < TWO_64 && Width(log, maxValue) < 64
      ensures Valid() && fresh(bits) && fresh(bits.blocks)
      ensures itemsCount == size && itemSize == Width(log, maxValue)
      ensures View() == seq(size, _ => 0)
    {
      bits := new BitSet(size);
      itemSize := Width(log, maxValue);
      itemsCount := size;
      new;
      forall i: nat ensures ItemAt(bits.blocks[..], i * itemSize, itemSize) == 0 {
        ZeroDigits();
        assert forall k: nat :: HasBit(bits.blocks[..], k) == bits.Has(k);
        ItemIs(bits.blocks[..], i * itemSize, itemSize, 0);
      }
    }

    /** DeepCopy: equal items in storage of its own. */
    constructor Copy(from: CompactArray)
      requires from.Valid()
      ensures Valid() && fresh(bits) && fresh(bits.blocks)
      ensures itemSize == from.itemSize && itemsCount == from.itemsCount && View() == from.View()
    {
      bits := new BitSet.Copy(from.bits);
      itemSize := from.itemSize;
      itemsCount := from.itemsCount;
    }

    /** `uint(index) * a.ItemSize` in 64-bit arithmetic never wraps on an accepted index. */
    lemma BitIndexExact(index: nat)
      requires itemSize < 64 && index < itemsCount <= MAX_SIZE
      ensures (index * itemSize) % TWO_64 == index * itemSize
    {
      Apart(index, itemsCount, itemSize);
      assert itemsCount * itemSize <= MAX_SIZE * 64;
    }

    /** Stores value at index; a call outside the array or the width panics and changes nothing. */
    method SetItem(index: int, value: nat) returns (panicked: bool)
      requires Valid()
      modifies bits, bits.blocks
      ensures Valid() && (bits.blocks == old(bits.blocks) || fresh(bits.blocks))
      ensures panicked <==> index < 0 || index >= itemsCount || value >= Mask(itemSize)
      ensures View() == if panicked then old(View()) else old(View())[index := value]
    {
      if index < 0 || index >= itemsCount || value > Mask(itemSize) - 1 {
        return true;
      }
      BitIndexExact(index);
      ghost var before := bits.blocks[..];
      var bitIndex: nat := (index * itemSize) % TWO_64;
      StoreBits(bits, bitIndex, itemSize, value);
      assert forall k: nat :: HasBit(bits.blocks[..], k) == bits.Has(k);
      WriteOneItem(before, bits.blocks[..], itemSize, itemsCount, index, bitIndex, value);
      return false;
    }

    /** The item at index; an index outside the array panics. */
    method GetItem(index: int) returns (panicked: bool, item: nat)
      requires Valid()
      ensures panicked == !(0 <= index < itemsCount)
      ensures !panicked ==> item == View()[index]
    {
      if index < 0 || index >= itemsCount {
        return true, 0;
      }
      BitIndexExact(index);
      item := LoadBits(bits, (index * itemSize) % TWO_64, itemSize);
      panicked := false;
    }

    method GetItems() returns (items: seq<nat>)
      requires Valid()
      ensures items == View()
    {
      items := [];
      for i := 0 to itemsCount
        invariant items == View()[..i]
      {
        var _, item := GetItem(i);
        items := items + [item];
      }
    }
  }

  /** The first value of the countdown `int(a.ItemSize - 1)`; a width of 0 wraps round to -1. */
  function Countdown(itemSize: nat): (i: int)
    requires itemSize < 64
    ensures i == itemSize - 1
  {
    var wrapped := (itemSize - 1) % TWO_64;
    if wrapped >= TWO_64 / 2 then wrapped - TWO_64 else wrapped
  }

  /** The loop of SetItem: digit t of value goes to bit base+size-1-t, and no other bit changes. */
  method StoreBits(bits: BitSet, base: nat, size: nat, value: nat)
    requires bits.Valid() && size < 64
    modifies bits, bits.blocks
    ensures bits.Valid() && (bits.blocks == old(bits.blocks) || fresh(bits.blocks))
    ensures forall k: nat :: bits.Has(k) == if base <= k < base + size then On(value, base + size - 1 - k) else old(bits.Has(k))
  {
    var x := Mask(0);
    var i := Countdown(size);
    while i >= 0
      invariant -1 <= i < size
      invariant bits.Valid() && (bits.blocks == old(bits.blocks) || fresh(bits.blocks))
      invariant i >= 0 ==> x == Mask(size - 1 - i)
      invariant forall k: nat ::
                  bits.Has(k) == if base + i < k < base + size then On(value, base + size - 1 - k) else old(bits.Has(k))
    {
      MaskTests(value, size - 1 - i);
      AndCommutes(x, value);
      if And(x, value) != 0 {
        bits.Set(base + i);
      } else {
        bits.Clear(base + i);
      }
      NextMask(size - 1 - i);
      x := ShiftLeft64(x);
      i := i - 1;
    }
  }

  /** The loop of GetItem: reads the item stored at bits base to base+size-1. */
  method LoadBits(bits: BitSet, base: nat, size: nat) returns (item: nat)
    requires bits.Valid() && size < 64
    ensures item == ItemAt(bits.blocks[..], base, size)
  {
    item := 0;
    var x := Mask(0);
    var i := Countdown(size);
    ZeroDigits();
    while i >= 0
      invariant -1 <= i < size
      invariant i >= 0 ==> x == Mask(size - 1 - i)
      invariant forall t: nat :: On(item, t) == (t < size - 1 - i && HasBit(bits.blocks[..], base + size - 1 - t))
    {
      var on := bits.IsSet(base + i);
      if on {
        OrMask(item, size - 1 - i);
        item := Or(item, x);
      }
      NextMask(size - 1 - i);
      x := ShiftLeft64(x);
      i := i - 1;
    }
    ItemHasDigits(bits.blocks[..], base, size, item);
  }

  /** NewCompactArray: refuses a width that does not leave room below 64 bits. An array that it makes holds the largest
      value exactly if the width was not rounded down. */
  method NewCompactArray(log: Log2, size: nat, maxValue: nat) returns (a: CompactArray?)
    requires log.Valid() && size <= MAX_SIZE && maxValue < TWO_64
    ensures a == null <==> Width(log, maxValue) >= 64
    ensures maxValue < TWO_64 - 1 ==> (a == null <==> maxValue >= TWO_64 / 2 && Distinguished(log, maxValue))
    ensures a != null ==> fresh(a) && a.Valid() && fresh(a.bits) && fresh(a.bits.blocks)
    ensures a != null ==> a.View() == seq(size, _ => 0) && a.itemsCount == size
    ensures a != null && maxValue < TWO_64 - 1 ==> (maxValue < Mask(a.itemSize) <==> Distinguished(log, maxValue))
  {
    if maxValue < TWO_64 - 1 {
      WidthHoldsExactly(log, maxValue);
      FullWidth(maxValue);
    }
    if Width(log, maxValue) >= 64 {
      return null;
    }
    a := new CompactArray(log, size, maxValue);
  }

  lemma FullWidth(maxValue: nat)
    requires maxValue < TWO_64
    ensures BitsNeeded(maxValue) <= 64 && (BitsNeeded(maxValue) == 64 <==> maxValue >= TWO_64 / 2)
  {
    BitsNeededIsCeilLog(maxValue, 63);
    BitsNeededIsCeilLog(maxValue, 64);
    MaskOf32And64();
    assert Mask(64) == 2 * Mask(63);
  }

  /** 2^63 is accepted as a largest value and does not fit; a SetItem of it panics. */
  method HalfRangeIsMisfit(log: Log2, size: nat) returns (a: CompactArray?, panicked: bool)
    requires log.Valid() && 0 < size <= MAX_SIZE
    ensures a != null && panicked
  {
    PowersMisfit(log, 63);
    MaskOf32And64();
    assert Mask(64) == 2 * Mask(63);
    a := NewCompactArray(log, size, TWO_64 / 2);
    panicked := a.SetItem(0, TWO_64 / 2);
  }

  /** Any history of accepted writes, next to a copy taken before them. */
  method Replay(a: CompactArray, writes: seq<(nat, nat)>) returns (copy: CompactArray)
    requires a.Valid()
    requires forall k :: 0 <= k < |writes| ==> writes[k].0 < a.itemsCount && writes[k].1 < Mask(a.itemSize)
    modifies a.bits, a.bits.blocks
    ensures a.Valid() && a.View() == AfterWrites(old(a.View()), writes)
    ensures fresh(copy) && copy.Valid() && copy.View() == old(a.View())
  {
    copy := new CompactArray.Copy(a);
    ghost var items := a.View();
    for n := 0 to |writes|
      invariant a.Valid() && (a.bits.blocks == old(a.bits.blocks) || fresh(a.bits.blocks))
      invariant a.bits.blocks != copy.bits.blocks
      invariant a.View() == AfterWrites(items, writes[..n])
      invariant copy.Valid() && copy.View() == old(a.View())
    {
      assert writes[..n + 1][..n] == writes[..n];
      var _ := a.SetItem(writes[n].0, writes[n].1);
    }
    assert writes[..|writes|] == writes;
  }
}
