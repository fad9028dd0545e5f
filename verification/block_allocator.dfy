/** The block allocator: a pool cut into equal blocks, with a free list and an availability bit each. */
module BlockAllocators {
  import opened Wrappers
  import opened Wrids

  /** A block on loan: which allocator it came from, and where in the pool it lies. */
  datatype Block = Block(allocator: MemoryBlockAllocator, offset: int, size: nat)

  datatype FreeResult = Freed | WrongAllocator | Negative | Beyond | Unaligned | DoubleFree | Undefined

  lemma ProductOver(i: int, size: int)
    requires size > 0
    ensures i * size / size == i && i * size % size == 0
  {
    var q, r := i * size / size, i * size % size;
    assert (i - q) * size == r;
    assert i - q >= 1 ==> (i - q) * size >= size;
    assert i - q <= -1 ==> (i - q) * size <= -size;
  }

  lemma ProductOrder(i: nat, j: nat, size: nat)
    requires size > 0
    ensures i < j ==> i * size < j * size
    ensures i <= j <==> i * size <= j * size
  {
  }

  // The number of the block at an offset, if there is a whole number of blocks before it.
  function NumberAt(offset: int, size: nat, blocks: nat): Option<nat>
    requires size > 0
  {
    if 0 <= offset <= blocks * size && offset % size == 0 then Some(offset / size) else None
  }

  lemma NumberIff(offset: int, size: nat, blocks: nat, i: nat)
    requires size > 0
    ensures NumberAt(offset, size, blocks) == Some(i) <==> i <= blocks && offset == i * size
  {
    ProductOver(i, size);
    ProductOrder(i, blocks, size);
  }

  // The list names exactly the blocks whose bit is set, once each.
  ghost predicate Tracked(available: seq<nat>, bits: seq<bool>) {
    && NoRepeats(available)
    && (forall i {:trigger i in available} | i in available :: i < |bits| && bits[i])
    && (forall i: nat {:trigger bits[i]} | i < |bits| && bits[i] :: i in available)
  }

  lemma TrackedPop(available: seq<nat>, bits: seq<bool>)
    requires Tracked(available, bits) && available != []
    ensures var n := |available| - 1;
      available[n] < |bits| && available[n] !in available[..n] && Tracked(available[..n], bits[available[n] := false])
      && available == available[..n] + [available[n]]
  {
    var n := |available| - 1;
    assert available[n] in available;
    forall i | i in available[..n] ensures i in available && i != available[n] {
    }
    forall i: nat | i < |bits| && bits[i] && i != available[n] ensures i in available[..n] {
      assert i in available;
    }
  }

  lemma TrackedPush(available: seq<nat>, bits: seq<bool>, i: nat)
    requires Tracked(available, bits) && i < |bits| && !bits[i]
    ensures i !in available && Tracked(available + [i], bits[i := true])
  {
  }

  class MemoryBlockAllocator {
    const blockSize: nat
    const blocks: nat
    const availability: array<bool>
    var available: seq<nat>

    // The block with the given number.
    function BlockAt(i: nat): Block {
      Block(this, i * blockSize, blockSize)
    }

    ghost predicate Valid()
      reads this, availability
    {
      blockSize > 0 && availability.Length == blocks && Tracked(available, availability[..])
    }

    constructor (poolBits: nat, blockBits: nat)
      requires blockBits <= poolBits
      ensures Valid() && blockSize == Pow2(blockBits) && blocks == Pow2(poolBits - blockBits)
      ensures fresh(availability) && available == seq(blocks, i => i)
    {
      blockSize, blocks := Pow2(blockBits), Pow2(poolBits - blockBits);
      availability := new bool[Pow2(poolBits - blockBits)](_ => true);
      available := [];
      new;
      for i := 0 to blocks
        invariant |available| == i && forall k {:trigger available[k]} | 0 <= k < i :: available[k] == k
        invariant forall k {:trigger availability[k]} | 0 <= k < blocks :: availability[k]
        modifies `available
      {
        available := available + [i];
      }
      forall i: nat | i < blocks ensures i in available {
        assert available[i] == i;
      }
    }

    /** Lends a block that was free, or reports that none is. */
    method Allocate() returns (b: Option<Block>)
      requires Valid()
      modifies `available, availability
      ensures Valid() && (b == None <==> old(available) == [])
      ensures b == None ==> available == old(available)
      ensures b.Some? ==> var i := old(available)[|old(available)| - 1];
        b.value == BlockAt(i) && i < blocks && i !in available && old(available) == available + [i]
    {
      if available == [] {
        return None;
      }
      var index := available[|available| - 1];
      TrackedPop(available, availability[..]);
      hide Tracked;
      available := available[..|available| - 1];
      availability[index] := false;
      assert availability[..] == old(availability[..])[index := false];
      b := Some(BlockAt(index));
    }

    // Whether a block number is out on loan.
    ghost predicate Lent(i: nat)
      reads this
    {
      i < blocks && i !in available
    }

    /**
     Takes back exactly the blocks on loan. An offset equal to the pool size passes
     the range test, and then the bit read lies past the last one.
     */
    method Free(b: Block) returns (r: FreeResult)
      requires Valid()
      modifies `available, availability
      ensures Valid()
      ensures r == Freed <==>
        b.allocator == this && exists i: nat {:trigger BlockAt(i)} :: old(Lent(i)) && b.offset == BlockAt(i).offset
      ensures r == Freed ==> available == old(available) + [b.offset / blockSize]
      ensures r != Freed ==> available == old(available)
      ensures r == WrongAllocator <==> b.allocator != this
      ensures r == Negative <==> b.allocator == this && b.offset < 0
      ensures r == Beyond <==> b.allocator == this && b.offset > blocks * blockSize
      ensures r == Unaligned <==>
        b.allocator == this && 0 <= b.offset <= blocks * blockSize && b.offset % blockSize != 0
      ensures r == Undefined <==> b.allocator == this && b.offset == BlockAt(blocks).offset
      ensures r == DoubleFree <==>
        b.allocator == this && exists i: nat {:trigger BlockAt(i)} ::
          i in old(available) && b.offset == BlockAt(i).offset
    {
      if b.allocator != this {
        return WrongAllocator;
      }
      ghost var number := NumberAt(b.offset, blockSize, blocks);
      assert forall i: nat {:trigger BlockAt(i)} ::
        number == Some(i) <==> i <= blocks && b.offset == BlockAt(i).offset by {
        forall i: nat ensures number == Some(i) <==> i <= blocks && b.offset == BlockAt(i).offset {
          NumberIff(b.offset, blockSize, blocks, i);
        }
      }
      if b.offset < 0 {
        return Negative;
      }
      if b.offset > blocks * blockSize {
        return Beyond;
      }
      if b.offset % blockSize != 0 {
        return Unaligned;
      }
      var index := b.offset / blockSize;
      assert number == Some(index) && b.offset == BlockAt(index).offset;
      hide NumberAt, MemoryBlockAllocator.BlockAt;
      if index == blocks {
        return Undefined;
      }
      if availability[index] {
        return DoubleFree;
      }
      TrackedPush(available, availability[..], index);
      hide Tracked;
      availability[index] := true;
      assert availability[..] == old(availability[..])[index := true];
      available := available + [index];
      r := Freed;
    }
  }
}
