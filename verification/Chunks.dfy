/** How Read and Write cut one transfer into chunks. */
module Chunks {
  import opened Basics
  import opened Bytes

  /** One callback's share of a transfer: `byteCount` bytes at `shift`, of which
      `copyCount` are payload and the rest padding. */
  datatype Chunk = Chunk(shift: nat, byteCount: nat, copyCount: nat)

  function NumChunks(n: nat, bs: nat): nat
    requires bs > 0
  {
    Align(n) / bs + (if Align(n) % bs > 0 then 1 else 0)
  }

  function ChunkAt(n: nat, bs: nat, i: nat): Chunk
    requires bs > 0 && i < NumChunks(n, bs)
  {
    ShiftBound(n, bs, i);
    var shift := i * bs;
    var byteCount := if shift + bs > Align(n) then Align(n) - shift else bs;
    var copyCount := if shift + byteCount <= n then byteCount else if n > shift then n - shift else 0;
    Chunk(shift, byteCount, copyCount)
  }

  lemma MulAligned(i: nat, b: nat)
    requires b % ALIGNMENT == 0
    ensures (i * b) % ALIGNMENT == 0
  {
    if i > 0 {
      MulAligned(i - 1, b);
      assert i * b == (i - 1) * b + b;
    }
  }

  lemma SumAligned(a: nat, b: nat)
    requires a % ALIGNMENT == 0 && b % ALIGNMENT == 0
    ensures (a + b) % ALIGNMENT == 0
  {
  }

  lemma DifferenceAligned(a: nat, b: nat)
    requires a % ALIGNMENT == 0 && b % ALIGNMENT == 0 && b <= a
    ensures (a - b) % ALIGNMENT == 0
  {
  }

  /** A chunk starts inside the aligned range. */
  lemma ShiftBound(n: nat, bs: nat, i: nat)
    requires bs > 0 && i < NumChunks(n, bs)
    ensures 0 <= i * bs < Align(n)
  {
    var q, r := Align(n) / bs, Align(n) % bs;
    assert Align(n) == q * bs + r;
    if i < q {
      assert (i + 1) * bs <= q * bs;
    }
  }

  /** Every chunk is non-empty, fits a block and stays inside the aligned range. */
  lemma ChunkBounds(n: nat, bs: nat, i: nat)
    requires bs > 0 && i < NumChunks(n, bs)
    ensures
      var k := ChunkAt(n, bs, i);
      && k.shift == i * bs
      && 0 < k.byteCount <= bs && k.shift + k.byteCount <= Align(n)
      && k.copyCount <= k.byteCount
      && (k.copyCount > 0 ==> k.shift + k.copyCount <= n)
  {
    ShiftBound(n, bs, i);
  }

  ghost predicate InChunk(n: nat, bs: nat, i: nat, q: int)
    requires bs > 0
  {
    0 <= i < NumChunks(n, bs) && ChunkAt(n, bs, i).shift <= q < ChunkAt(n, bs, i).shift + ChunkAt(n, bs, i).byteCount
  }

  /** The payload of a chunk is what of it lies below n. */
  lemma ChunkPayload(n: nat, bs: nat, i: nat, q: int)
    requires bs > 0 && InChunk(n, bs, i, q)
    ensures q < n <==> q < ChunkAt(n, bs, i).shift + ChunkAt(n, bs, i).copyCount
  {
    ShiftBound(n, bs, i);
  }

  /** The chunks cover the aligned range. */
  lemma ChunksCover(n: nat, bs: nat, q: nat) returns (i: nat)
    requires bs > 0 && q < Align(n)
    ensures InChunk(n, bs, i, q)
  {
    i := q / bs;
    var k, r := Align(n) / bs, Align(n) % bs;
    assert q == i * bs + q % bs;
    assert Align(n) == k * bs + r;
    if i > k {
      MulLess(k, i, bs);
    } else if i == k {
      assert i * bs == k * bs;
    }
    ShiftBound(n, bs, i);
  }

  /** No two chunks overlap, and a later chunk starts no earlier than an earlier one ends. */
  lemma ChunksDisjoint(n: nat, bs: nat, i: nat, j: nat)
    requires bs > 0 && i < j < NumChunks(n, bs)
    ensures ChunkAt(n, bs, i).shift + ChunkAt(n, bs, i).byteCount <= ChunkAt(n, bs, j).shift
  {
    ChunkBounds(n, bs, i);
    ChunkBounds(n, bs, j);
    MulLess(i, j, bs);
  }

  lemma ChunkUnique(n: nat, bs: nat, i: nat, j: nat, q: int)
    requires bs > 0 && InChunk(n, bs, i, q) && InChunk(n, bs, j, q)
    ensures i == j
  {
    if i < j { ChunksDisjoint(n, bs, i, j); }
    if j < i { ChunksDisjoint(n, bs, j, i); }
  }

  predicate TransferAligned(n: nat, bs: nat, off: nat, i: nat)
    requires bs > 0 && i < NumChunks(n, bs)
  {
    (off + ChunkAt(n, bs, i).shift) % ALIGNMENT == 0 && ChunkAt(n, bs, i).byteCount % ALIGNMENT == 0
  }

  lemma AlignedBlock(n: nat, bs: nat, off: nat, i: nat)
    requires bs > 0 && i < NumChunks(n, bs) && off % ALIGNMENT == 0 && bs % ALIGNMENT == 0
    ensures TransferAligned(n, bs, off, i)
  {
    ChunkBounds(n, bs, i);
    MulAligned(i, bs);
    var shift := ChunkAt(n, bs, i).shift;
    SumAligned(off, shift);
    DifferenceAligned(Align(n), shift);
  }

  lemma SingleChunk(n: nat, bs: nat, i: nat)
    requires bs > 0 && i < NumChunks(n, bs) && Align(n) < bs
    ensures ChunkAt(n, bs, i).shift == 0 && ChunkAt(n, bs, i).byteCount == Align(n)
  {
    ShiftBound(n, bs, i);
    if i > 0 { MulLess(0, i, bs); }
  }

  lemma UnalignedBlock(n: nat, bs: nat)
    requires bs > 0 && bs % ALIGNMENT != 0 && Align(n) > bs
    ensures NumChunks(n, bs) > 0 && ChunkAt(n, bs, 0).byteCount == bs
  {
    var i := ChunksCover(n, bs, 0);
    ChunkBounds(n, bs, 0);
  }

  /** With an aligned offset, all transfers are aligned exactly when the block size is a multiple of
      the alignment or the whole request is shorter than a block. */
  lemma TransfersAlignedIff(n: nat, bs: nat, off: nat)
    requires bs > 0 && off % ALIGNMENT == 0
    ensures (forall i: nat :: i < NumChunks(n, bs) ==> TransferAligned(n, bs, off, i)) <==>
            bs % ALIGNMENT == 0 || Align(n) < bs
  {
    if bs % ALIGNMENT == 0 {
      forall i: nat | i < NumChunks(n, bs) ensures TransferAligned(n, bs, off, i) { AlignedBlock(n, bs, off, i); }
    } else if Align(n) < bs {
      forall i: nat | i < NumChunks(n, bs) ensures TransferAligned(n, bs, off, i) { SingleChunk(n, bs, i); }
    } else {
      UnalignedBlock(n, bs);
      assert !TransferAligned(n, bs, off, 0);
    }
  }

  /** The loop that builds the callbacks of one transfer. */
  method BuildChunks(n: nat, bs: nat) returns (cs: seq<Chunk>)
    requires bs > 0
    ensures |cs| == NumChunks(n, bs)
    ensures forall i :: 0 <= i < |cs| ==> cs[i] == ChunkAt(n, bs, i)
  {
    var aligned := Align(n);
    var blocks, last := aligned / bs, aligned % bs;
    var count := if last > 0 then blocks + 1 else blocks;
    cs := [];
    for i := 0 to count
      invariant |cs| == i
      invariant forall k :: 0 <= k < i ==> cs[k] == ChunkAt(n, bs, k)
    {
      ShiftBound(n, bs, i);
      var shift := i * bs;
      var byteCount := bs;
      if shift + byteCount > aligned {
        byteCount := aligned - shift;
      }
      var copyCount := if shift + byteCount <= n then byteCount else if n - shift > 0 then n - shift else 0;
      cs := cs + [Chunk(shift, byteCount, copyCount)];
    }
  }
}
