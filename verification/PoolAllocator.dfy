/** The fixed-block allocator of pool_allocator.c: a free list threaded by index
    through an array. Memory is a range of byte addresses; the array of links is
    kept behind the blocks. */
module PoolAllocator {
  import opened Lists

  datatype Result = Success | NotEnoughMemory | UnalignedFree | OutOfRange | DoubleFree

  const NULL_IDX := -1
  const DETACHED_IDX := -2
  const SIZEOF_INT := 4

  // ----- Division as in C -----

  /** C's quotient, truncated toward zero, ... */
  function Quotient(a: int, b: int): int
    requires b > 0
  {
    if a >= 0 then a / b else -((-a) / b)
  }

  /** ... and the remainder that goes with it, of the sign of `a`. */
  function Remainder(a: int, b: int): int
    requires b > 0
  {
    a - Quotient(a, b) * b
  }

  lemma ProductMonotone(a: int, b: int, c: int)
    requires a <= b && c >= 0
    ensures a * c <= b * c
  {
  }

  /** The quotient is the only one with a remainder less than the divisor. */
  lemma QuotientOf(a: int, b: int)
    requires b > 0
    ensures -b < Remainder(a, b) < b
    ensures Remainder(a, b) == 0 <==> a == Quotient(a, b) * b
  {
  }

  lemma QuotientExact(i: int, b: int)
    requires b > 0
    ensures Quotient(i * b, b) == i && Remainder(i * b, b) == 0
  {
    QuotientOf(i * b, b);
    var q := Quotient(i * b, b);
    if q < i {
      ProductMonotone(q + 1, i, b);
    } else if q > i {
      ProductMonotone(i + 1, q, b);
    }
  }

  // ----- The free list -----

  /** What follows position `k` of the chain. */
  function Next(chain: seq<int>, k: nat): int {
    if k + 1 < |chain| then chain[k + 1] else NULL_IDX
  }

  /** The links lead from `first` through exactly the indices of `chain` and
      end; all other entries are marked as detached. */
  ghost predicate Threaded(links: seq<int>, first: int, chain: seq<int>) {
    && (forall k :: 0 <= k < |chain| ==> 0 <= chain[k] < |links|)
    && (forall j, k :: 0 <= j < k < |chain| ==> chain[j] != chain[k])
    && first == (if chain == [] then NULL_IDX else chain[0])
    && (forall k {:trigger Next(chain, k)} :: 0 <= k < |chain| ==> links[chain[k]] == Next(chain, k))
    && (forall i :: 0 <= i < |links| && i !in chain ==> links[i] == DETACHED_IDX)
  }

  lemma {:induction false} ChainPrefix(links: seq<int>, first: int, c: seq<int>, d: seq<int>, k: nat)
    requires Threaded(links, first, c) && Threaded(links, first, d) && k < |c|
    ensures k < |d| && d[k] == c[k]
  {
    if k > 0 {
      ChainPrefix(links, first, c, d, k - 1);
      assert links[c[k - 1]] == Next(c, k - 1);
      assert links[d[k - 1]] == Next(d, k - 1);
    }
  }

  /** There is only one such chain: the links form no cycle. */
  lemma ChainUnique(links: seq<int>, first: int, c: seq<int>, d: seq<int>)
    requires Threaded(links, first, c) && Threaded(links, first, d)
    ensures c == d
  {
    forall k | 0 <= k < |c| ensures k < |d| && d[k] == c[k] {
      ChainPrefix(links, first, c, d, k);
    }
    if |c| < |d| {
      ChainPrefix(links, first, d, c, |c|);
    } else if |d| < |c| {
      ChainPrefix(links, first, c, d, |d|);
    }
  }

  /** Every index leads to the next one: nothing is held. */
  lemma InOrder(links: seq<int>)
    requires links != [] && links[|links| - 1] == NULL_IDX
    requires forall k :: 0 <= k < |links| - 1 ==> links[k] == k + 1
    ensures Threaded(links, 0, seq(|links|, k => k)) && HeldIn(|links|, seq(|links|, k => k)) == {}
  {
    var chain := seq(|links|, k => k);
    forall i | 0 <= i < |links| ensures i in chain {
      assert chain[i] == i;
    }
  }

  /** Taking the first index out. */
  lemma UnthreadFirst(links: seq<int>, first: int, chain: seq<int>)
    requires Threaded(links, first, chain) && chain != []
    ensures 0 <= first < |links| && first !in chain[1..]
    ensures Threaded(links[first := DETACHED_IDX], links[first], chain[1..])
  {
    var links', rest := links[first := DETACHED_IDX], chain[1..];
    assert links[chain[0]] == Next(chain, 0);
    forall k | 0 <= k < |rest| ensures links'[rest[k]] == Next(rest, k) {
      assert links[chain[k + 1]] == Next(chain, k + 1);
    }
    forall i | 0 <= i < |links'| && i !in rest ensures links'[i] == DETACHED_IDX {
      assert i in chain ==> i == chain[0] || i in rest;
    }
  }

  /** Putting a detached index in front. */
  lemma ThreadFirst(links: seq<int>, first: int, chain: seq<int>, i: int)
    requires Threaded(links, first, chain) && 0 <= i < |links| && i !in chain
    ensures Threaded(links[i := first], i, [i] + chain)
  {
    var links', chain' := links[i := first], [i] + chain;
    forall k | 0 <= k < |chain'|
      ensures 0 <= chain'[k] < |links'| && links'[chain'[k]] == Next(chain', k)
    {
      if k > 0 {
        assert chain[k - 1] in chain;
        assert links[chain[k - 1]] == Next(chain, k - 1);
      }
    }
  }

  /** An entry is marked exactly if it is not in the chain. */
  lemma MarkedIffHeld(links: seq<int>, first: int, chain: seq<int>, i: int)
    requires Threaded(links, first, chain) && 0 <= i < |links|
    ensures links[i] == DETACHED_IDX <==> i !in chain
  {
    if i in chain {
      var k :| 0 <= k < |chain| && chain[k] == i;
      assert links[chain[k]] == Next(chain, k);
    }
  }

  // ----- Counting -----

  function Below(n: nat): set<int> {
    if n == 0 then {} else Below(n - 1) + {n - 1}
  }

  lemma {:induction false} BelowIs(n: nat)
    ensures |Below(n)| == n && forall i :: i in Below(n) <==> 0 <= i < n
  {
    if n > 0 {
      BelowIs(n - 1);
    }
  }

  function HeldIn(n: nat, chain: seq<int>): set<int> {
    set i | 0 <= i < n && i !in chain
  }

  lemma {:induction false} DistinctCount(chain: seq<int>)
    requires forall j, k :: 0 <= j < k < |chain| ==> chain[j] != chain[k]
    ensures |set i | i in chain| == |chain|
  {
    if chain != [] {
      var rest := chain[1..];
      DistinctCount(rest);
      assert chain[0] !in rest;
      assert (set i | i in chain) == (set i | i in rest) + {chain[0]};
    }
  }

  /** Conservation: free and held blocks make up the pool. */
  lemma FreeAndHeld(links: seq<int>, first: int, chain: seq<int>)
    requires Threaded(links, first, chain)
    ensures |chain| + |HeldIn(|links|, chain)| == |links|
  {
    var free := set i | i in chain;
    BelowIs(|links|);
    DistinctCount(chain);
    assert free <= Below(|links|) && HeldIn(|links|, chain) == Below(|links|) - free;
  }

  // ----- Where blocks lie -----

  function BlockAt(buffer: int, itemSize: int, i: int): int { buffer + i * itemSize }

  /** Blocks lie within the first `itemSize * n` bytes, one after the other:
      they neither overlap nor reach into the links behind them. */
  lemma BlocksApart(buffer: int, itemSize: int, n: int, i: int, j: int)
    requires itemSize > 0 && 0 <= i < n && 0 <= j < n
    ensures buffer <= BlockAt(buffer, itemSize, i) && BlockAt(buffer, itemSize, i) + itemSize <= buffer + itemSize * n
    ensures i < j ==> BlockAt(buffer, itemSize, i) + itemSize <= BlockAt(buffer, itemSize, j)
    ensures i != j ==> BlockAt(buffer, itemSize, i) != BlockAt(buffer, itemSize, j)
  {
    ProductMonotone(0, i, itemSize);
    ProductMonotone(i + 1, n, itemSize);
    if i < j {
      ProductMonotone(i + 1, j, itemSize);
    } else if j < i {
      ProductMonotone(j + 1, i, itemSize);
    }
  }

  /** Which error, if any, releasing this address is: by where it points. */
  function Verdict(buffer: int, itemSize: int, n: nat, chain: seq<int>, block: int): Result
    requires itemSize > 0
  {
    var offset := block - buffer;
    if Remainder(offset, itemSize) != 0 then UnalignedFree
    else if !(0 <= offset < itemSize * n) then OutOfRange
    else if Quotient(offset, itemSize) in chain then DoubleFree
    else Success
  }

  /** A release succeeds exactly on the addresses of held blocks, reports a double
      free exactly on those of free ones, is unaligned exactly off the grid of
      blocks that extends over all addresses, and out of range exactly on the
      rest of that grid. */
  lemma VerdictExactly(buffer: int, itemSize: int, n: nat, chain: seq<int>, block: int)
    requires itemSize > 0 && forall k :: 0 <= k < |chain| ==> 0 <= chain[k] < n
    ensures Verdict(buffer, itemSize, n, chain, block) == Success <==>
              exists i :: i in HeldIn(n, chain) && block == BlockAt(buffer, itemSize, i)
    ensures Verdict(buffer, itemSize, n, chain, block) == DoubleFree <==>
              exists i :: i in chain && block == BlockAt(buffer, itemSize, i)
    ensures Verdict(buffer, itemSize, n, chain, block) == UnalignedFree <==>
              forall i :: block != BlockAt(buffer, itemSize, i)
    ensures Verdict(buffer, itemSize, n, chain, block) == OutOfRange <==>
              exists i :: (i < 0 || i >= n) && block == BlockAt(buffer, itemSize, i)
  {
    var offset := block - buffer;
    var idx := Quotient(offset, itemSize);
    QuotientOf(offset, itemSize);
    InRange(offset, itemSize, n);
    forall i: int | block == BlockAt(buffer, itemSize, i) ensures idx == i && Remainder(offset, itemSize) == 0 {
      QuotientExact(i, itemSize);
    }
    if Remainder(offset, itemSize) == 0 {
      assert block == BlockAt(buffer, itemSize, idx);
    }
    if Verdict(buffer, itemSize, n, chain, block) == Success {
      assert idx in HeldIn(n, chain) && block == BlockAt(buffer, itemSize, idx);
    }
    if Verdict(buffer, itemSize, n, chain, block) == DoubleFree {
      assert idx in chain && block == BlockAt(buffer, itemSize, idx);
    }
  }

  /** An aligned offset is inside the blocks exactly if its index is in range. */
  lemma InRange(offset: int, itemSize: int, n: nat)
    requires itemSize > 0
    ensures Remainder(offset, itemSize) == 0 ==> (0 <= offset < itemSize * n <==> 0 <= Quotient(offset, itemSize) < n)
  {
    var idx := Quotient(offset, itemSize);
    if Remainder(offset, itemSize) == 0 {
      assert offset == idx * itemSize;
      if idx < 0 {
        ProductMonotone(idx, -1, itemSize);
      } else if idx >= n {
        ProductMonotone(n, idx, itemSize);
      } else {
        ProductMonotone(idx + 1, n, itemSize);
        ProductMonotone(0, idx, itemSize);
      }
    }
  }

  // ----- The allocator -----

  class PoolAllocator {
    var buffer: int
    var freeList: array<int>
    var bufferSize: int
    var size: int
    var sizeMax: int
    var itemSize: int
    var firstIdx: int
    ghost var chain: seq<int>

    ghost predicate Valid()
      reads this, freeList
    {
      && itemSize > 0 && freeList.Length == sizeMax && bufferSize == itemSize * sizeMax
      && size == |chain| && Threaded(freeList[..], firstIdx, chain)
    }

    /** The blocks in use, by index. */
    ghost function Held(): set<int>
      reads this, freeList
    {
      HeldIn(freeList.Length, chain)
    }

    /** The structure as static storage holds it before it is initialised. */
    constructor ()
      ensures size == 0 && sizeMax == 0 && fresh(freeList)
    {
      buffer, bufferSize, size, sizeMax, itemSize, firstIdx := 0, 0, 0, 0, 0, 0;
      freeList := new int[0];
      chain := [];
    }

    /** PoolAllocator_init. The free list is threaded in address order. */
    method Init(itemBytes: int, numItems: int, memory: int, memorySize: int) returns (result: Result)
      requires itemBytes > 0 && numItems > 0
      modifies this
      ensures result == (if memorySize < numItems * (itemBytes + SIZEOF_INT) then NotEnoughMemory else Success)
      ensures result == NotEnoughMemory ==> unchanged(this)
      ensures result == Success ==>
                && Valid() && fresh(freeList) && buffer == memory && itemSize == itemBytes && sizeMax == numItems
                && chain == seq(numItems, i => i) && Held() == {}
                && bufferSize + SIZEOF_INT * sizeMax <= memorySize
    {
      var requested := numItems * (itemBytes + SIZEOF_INT);
      if memorySize < requested {
        return NotEnoughMemory;
      }
      itemSize, size, bufferSize, sizeMax := itemBytes, numItems, itemBytes * numItems, numItems;
      buffer := memory;
      var links := new int[numItems];
      var i := 0;
      while i < size - 1
        invariant 0 <= i <= size - 1
        modifies links
        invariant forall k :: 0 <= k < i ==> links[k] == k + 1
      {
        links[i] := i + 1;
        i := i + 1;
      }
      links[size - 1] := NULL_IDX;
      freeList := links;
      firstIdx := 0;
      chain := seq(numItems, k => k);
      InOrder(freeList[..]);
      assert requested == itemBytes * numItems + SIZEOF_INT * numItems;
      return Success;
    }

    /** PoolAllocator_getBlock: the first free block, or none if all are held. */
    method GetBlock() returns (block: Option<int>)
      requires Valid()
      modifies this, freeList
      ensures Valid() && freeList == old(freeList) && sizeMax == old(sizeMax) && itemSize == old(itemSize)
              && buffer == old(buffer)
      ensures block.None? <==> |old(Held())| == sizeMax
      ensures block.None? ==> chain == old(chain)
      ensures block.Some? ==>
                && old(chain) != [] && chain == old(chain)[1..] && Held() == old(Held()) + {old(chain)[0]}
                && old(chain)[0] !in old(Held()) && block.value == BlockAt(buffer, itemSize, old(chain)[0])
      ensures size + |Held()| == sizeMax
    {
      FreeAndHeld(freeList[..], firstIdx, chain);
      if firstIdx == NULL_IDX {
        return None;
      }
      UnthreadFirst(freeList[..], firstIdx, chain);
      var detached := firstIdx;
      firstIdx := freeList[firstIdx];
      size := size - 1;
      freeList[detached] := DETACHED_IDX;
      chain := chain[1..];
      assert freeList[..] == old(freeList[..])[detached := DETACHED_IDX];
      HeldMore(freeList.Length, old(chain));
      FreeAndHeld(freeList[..], firstIdx, chain);
      return Some(buffer + detached * itemSize);
    }

    /** PoolAllocator_releaseBlock. */
    method ReleaseBlock(block: int) returns (result: Result)
      requires Valid()
      modifies this, freeList
      ensures Valid() && freeList == old(freeList) && sizeMax == old(sizeMax) && itemSize == old(itemSize)
              && buffer == old(buffer)
      ensures result == Verdict(buffer, itemSize, old(freeList.Length), old(chain), block)
      ensures result != Success ==> unchanged(this) && freeList[..] == old(freeList[..])
      ensures result == Success ==>
                var idx := Quotient(block - buffer, itemSize);
                idx in old(Held()) && chain == [idx] + old(chain) && Held() == old(Held()) - {idx}
      ensures size + |Held()| == sizeMax
    {
      FreeAndHeld(freeList[..], firstIdx, chain);
      var offset := block - buffer;
      if Remainder(offset, itemSize) != 0 {
        return UnalignedFree;
      }
      var idx := Quotient(offset, itemSize);
      InRange(offset, itemSize, freeList.Length);
      if idx < 0 || idx >= sizeMax {
        return OutOfRange;
      }
      MarkedIffHeld(freeList[..], firstIdx, chain, idx);
      if freeList[idx] != DETACHED_IDX {
        return DoubleFree;
      }
      ThreadFirst(freeList[..], firstIdx, chain, idx);
      freeList[idx] := firstIdx;
      firstIdx := idx;
      size := size + 1;
      chain := [idx] + chain;
      assert freeList[..] == old(freeList[..])[idx := old(firstIdx)];
      HeldMore(freeList.Length, chain);
      FreeAndHeld(freeList[..], firstIdx, chain);
      return Success;
    }
  }

  /** Taking the first index off the chain makes it held. */
  lemma HeldMore(n: nat, chain: seq<int>)
    requires chain != [] && 0 <= chain[0] < n && chain[0] !in chain[1..]
    ensures HeldIn(n, chain[1..]) == HeldIn(n, chain) + {chain[0]}
    ensures HeldIn(n, chain) == HeldIn(n, chain[1..]) - {chain[0]}
  {
    assert forall i :: i in chain <==> i == chain[0] || i in chain[1..];
  }
}
