/** The "opposite of a Bloom filter": it may forget what it was given, it never claims what it was not. */
module FastCheck {
  import opened Base
  import opened Words

  type Byte = b: int | 0 <= b < 256

  type Id = seq<Byte>

  /** An MD5 digest. */
  type Digest = d: seq<Byte> | |d| == 16 witness seq(16, _ => 0)

  const MAX_FILTER_SIZE: int := 0x4000_0000

  /** Above this index no slot is ever used. */
  const LARGEST_SUM: int := 255 * 73

  datatype FilterError = SizeTooLarge | SizeTooSmall

  /** The three leading bytes, eight apart: an overlapping sum, not a 32-bit word. */
  function Sum(d: Digest): nat {
    64 * (d[0] as int) + 8 * (d[1] as int) + d[2]
  }

  method Sum32(d: Digest) returns (x: nat)
    ensures x == Sum(d) && x <= LARGEST_SUM
  {
    x := d[0];
    var rest := d[1..3];
    for i := 0 to |rest|
      invariant x == (if i == 0 then d[0] else if i == 1 then 8 * (d[0] as int) + d[1] else Sum(d))
    {
      x := x * 8 % TWO_32;
      x := (x + rest[i]) % TWO_32;
    }
  }

  /** 2 to the ceiling of the base-2 logarithm. */
  function RoundUp(size: nat): nat
    requires size > 0
  {
    if size == 1 then 1 else 2 * RoundUp((size + 1) / 2)
  }

  /** RoundUp is the least power of two that is no smaller. */
  lemma {:induction false} RoundUpIsLeast(size: nat) returns (k: nat)
    requires size > 0
    ensures RoundUp(size) == Mask(k)
    ensures size <= Mask(k)
    ensures forall j: nat :: size <= Mask(j) ==> Mask(k) <= Mask(j)
  {
    if size == 1 {
      k := 0;
    } else {
      var h := RoundUpIsLeast((size + 1) / 2);
      k := h + 1;
      forall j: nat | size <= Mask(j) ensures Mask(k) <= Mask(j) {
        assert j > 0 && Mask(j) == 2 * Mask(j - 1);
        assert (size + 1) / 2 <= Mask(j - 1);
      }
    }
  }

  lemma {:induction false} AndIsBelow(a: nat, b: nat)
    ensures And(a, b) <= a && And(a, b) <= b
  {
    if a > 0 && b > 0 {
      AndIsBelow(a / 2, b / 2);
    }
  }

  /** Under a power of two, masking keeps every sum it can tell apart: it is the identity below the size. */
  lemma {:induction false} MaskKeepsSmall(a: nat, k: nat)
    requires a < Mask(k)
    ensures And(a, Mask(k) - 1) == a
  {
    if a > 0 {
      assert (Mask(k) - 1) / 2 == Mask(k - 1) - 1;
      MaskKeepsSmall(a / 2, k - 1);
    }
  }

  /** The slot of an id in a filter of the given size. */
  function Slot(digest: Id -> Digest, id: Id, size: nat): (i: nat)
    requires size > 0
    ensures i < size && i <= LARGEST_SUM
  {
    AndIsBelow(Sum(digest(id)), size - 1);
    And(Sum(digest(id)), size - 1)
  }

  /** The last id of a history that fell into a slot. */
  function LastIn(digest: Id -> Digest, size: nat, adds: seq<Id>, slot: nat): Option<Id>
    requires size > 0
  {
    if adds == [] then None
    else
      var last := adds[|adds| - 1];
      if Slot(digest, last, size) == slot then Some(last) else LastIn(digest, size, adds[..|adds| - 1], slot)
  }

  /** The i-th id went into the slot, and no later one did. */
  predicate LastAt(digest: Id -> Digest, size: nat, adds: seq<Id>, slot: nat, i: nat)
    requires size > 0
  {
    && i < |adds| && Slot(digest, adds[i], size) == slot
    && forall j :: i < j < |adds| ==> Slot(digest, adds[j], size) != slot
  }

  /** A slot holds the id that went into it last, and is empty exactly if none did. */
  lemma {:induction false} LastInIsLast(digest: Id -> Digest, size: nat, adds: seq<Id>, slot: nat) returns (i: nat)
    requires size > 0
    ensures
      match LastIn(digest, size, adds, slot)
      case Some(id) => LastAt(digest, size, adds, slot, i) && adds[i] == id
      case None => forall k :: 0 <= k < |adds| ==> Slot(digest, adds[k], size) != slot
  {
    i := 0;
    if adds != [] {
      var n := |adds| - 1;
      if Slot(digest, adds[n], size) == slot {
        i := n;
      } else {
        i := LastInIsLast(digest, size, adds[..n], slot);
      }
    }
  }

  /** A filter of any size uses at most LARGEST_SUM + 1 slots. */
  lemma {:induction false} HighSlotsStayEmpty(digest: Id -> Digest, size: nat, adds: seq<Id>, slot: nat)
    requires size > 0 && slot > LARGEST_SUM
    ensures LastIn(digest, size, adds, slot) == None
  {
    if adds != [] {
      HighSlotsStayEmpty(digest, size, adds[..|adds| - 1], slot);
    }
  }

  class OppoBloomFilter {
    const digest: Id -> Digest
    const slots: array<Option<Id>>
    const sizeMask: nat

    /** Every id given to Add, oldest first. */
    ghost var adds: seq<Id>

    ghost predicate Valid()
      reads this, slots
    {
      && slots.Length > 0 && sizeMask == slots.Length - 1
      && forall i :: 0 <= i < slots.Length ==> slots[i] == LastIn(digest, slots.Length, adds, i)
    }

    /** NewOppoBloomFilter on a size it accepts. */
    constructor (digest: Id -> Digest, size: nat)
      requires 0 < size <= MAX_FILTER_SIZE
      ensures Valid() && fresh(slots) && adds == [] && this.digest == digest
      ensures slots.Length == RoundUp(size)
    {
      ghost var k := RoundUpIsLeast(size);
      this.digest := digest;
      slots := new Option<Id>[RoundUp(size)](_ => None);
      sizeMask := RoundUp(size) - 1;
      adds := [];
    }

    method GetIndex(id: Id) returns (i: nat)
      requires Valid()
      ensures i < slots.Length && i == Slot(digest, id, slots.Length)
    {
      var sum := Sum32(digest(id));
      i := And(sum, sizeMask);
      assert sum == Sum(digest(id));
      AndIsBelow(sum, sizeMask);
    }

    /** Says whether the slot held something else; an empty id is reported as present in an empty slot. */
    method Add(id: Id) returns (isNew: bool)
      requires Valid()
      modifies slots, `adds
      ensures Valid() && adds == old(adds) + [id]
      ensures
        var before := old(LastIn(digest, slots.Length, adds, Slot(digest, id, slots.Length)));
        isNew == !(before == Some(id) || (before == None && id == []))
    {
      var i := GetIndex(id);
      var before := slots[i];
      slots[i] := Some(id);
      adds := adds + [id];
      isNew := !(match before case Some(x) => x == id case None => id == []);
      assert adds[..|adds| - 1] == old(adds);
    }

    method Contains(id: Id) returns (r: bool)
      requires Valid()
      ensures r <==> LastIn(digest, slots.Length, adds, Slot(digest, id, slots.Length)) == Some(id)
      ensures r ==> id in adds
    {
      var i := GetIndex(id);
      r := slots[i] == Some(id);
      ghost var last := LastInIsLast(digest, slots.Length, adds, i);
    }
  }

  method NewOppoBloomFilter(digest: Id -> Digest, size: int) returns (r: Result<OppoBloomFilter, FilterError>)
    ensures size > MAX_FILTER_SIZE ==> r == Err(SizeTooLarge)
    ensures size <= 0 ==> r == Err(SizeTooSmall)
    ensures 0 < size <= MAX_FILTER_SIZE ==>
      r.Ok? && fresh(r.value) && fresh(r.value.slots) && r.value.Valid() && r.value.adds == []
  {
    if size > MAX_FILTER_SIZE {
      return Err(SizeTooLarge);
    }
    if size <= 0 {
      return Err(SizeTooSmall);
    }
    var filter := new OppoBloomFilter(digest, size);
    r := Ok(filter);
  }
}
