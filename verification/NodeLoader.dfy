/** Filling a node's host buffer from the partition files, in the three ways the runtime does it. */
module NodeLoader {
  import opened Bytes
  import opened TensorStore

  function SizeOf(s: Store, id: nat): nat {
    if id in s.index then s.index[id].size else 0
  }

  /** Where the k-th tensor of a node starts in the node's buffer: aligned sizes summed. */
  function Offset(s: Store, ids: seq<nat>, k: nat): nat
    requires k <= |ids|
  {
    if k == 0 then 0 else Offset(s, ids, k - 1) + Align(SizeOf(s, ids[k - 1]))
  }

  function ByteSize(s: Store, ids: seq<nat>): nat {
    Offset(s, ids, |ids|)
  }

  /** The tensors of `ids` are stored in a valid layout. */
  ghost predicate AllStored(s: Store, ids: seq<nat>) {
    Valid(s) && forall k :: 0 <= k < |ids| ==> ids[k] in s.index
  }

  /** What tensor k of the node should read. */
  ghost function Payload(s: Store, ids: seq<nat>, k: nat): (data: seq<byte>)
    requires AllStored(s, ids) && k < |ids|
    ensures |data| == SizeOf(s, ids[k])
  {
    assert ExtentOk(s, s.index[ids[k]]);
    ReadTensor(s, ids[k])
  }

  ghost predicate Reads(buf: seq<byte>, at: nat, data: seq<byte>) {
    at + |data| <= |buf| && buf[at..at + |data|] == data
  }

  ghost predicate LoadedUpTo(s: Store, ids: seq<nat>, buf: seq<byte>, n: nat)
    requires AllStored(s, ids) && n <= |ids|
  {
    forall k: nat :: k < n ==> Reads(buf, Offset(s, ids, k), Payload(s, ids, k))
  }

  /** A buffer of exactly the node's size with every tensor's bytes at its offset. */
  ghost predicate Loaded(s: Store, ids: seq<nat>, buf: seq<byte>)
    requires AllStored(s, ids)
  {
    |buf| == ByteSize(s, ids) && LoadedUpTo(s, ids, buf, |ids|)
  }

  lemma {:induction false} OffsetsApart(s: Store, ids: seq<nat>, i: nat, k: nat)
    requires i < k <= |ids|
    ensures Offset(s, ids, i) + Align(SizeOf(s, ids[i])) <= Offset(s, ids, k)
    decreases k
  {
    if i < k - 1 { OffsetsApart(s, ids, i, k - 1); }
  }

  lemma {:induction false} OffsetAligned(s: Store, ids: seq<nat>, k: nat)
    requires k <= |ids|
    ensures Offset(s, ids, k) % ALIGNMENT == 0
  {
    if k > 0 { OffsetAligned(s, ids, k - 1); }
  }

  /** The whole slot of tensor k, padding included, lies inside the node's buffer. */
  lemma SlotInside(s: Store, ids: seq<nat>, k: nat)
    requires k < |ids|
    ensures Offset(s, ids, k) + SizeOf(s, ids[k]) <= Offset(s, ids, k) + Align(SizeOf(s, ids[k])) <= ByteSize(s, ids)
  {
    OffsetsApart(s, ids, k, |ids|);
  }

  /** The byte_size loop of InitializeTopology: an unknown tensor adds nothing. */
  method NodeByteSize(s: Store, ids: seq<nat>) returns (size: nat)
    ensures size == ByteSize(s, ids)
  {
    size := 0;
    for k := 0 to |ids|
      invariant size == Offset(s, ids, k)
    {
      if ids[k] in s.index {
        size := size + Align(s.index[ids[k]].size);
      }
    }
  }

  // ---------------------------------------------------------------- copying

  function Splice(buf: seq<byte>, at: nat, data: seq<byte>): (r: seq<byte>)
    requires at + |data| <= |buf|
    ensures |r| == |buf| && r[at..at + |data|] == data
  {
    buf[..at] + data + buf[at + |data|..]
  }

  method CopyInto(dst: array<byte>, at: nat, data: seq<byte>)
    requires at + |data| <= dst.Length
    modifies dst
    ensures dst[..] == Splice(old(dst[..]), at, data)
  {
    forall i | 0 <= i < |data| {
      dst[at + i] := data[i];
    }
  }

  lemma SpliceWhole(buf: seq<byte>, data: seq<byte>)
    requires |data| == |buf|
    ensures Splice(buf, 0, data) == data
  {
  }

  lemma SpliceFrame(buf: seq<byte>, at: nat, data: seq<byte>, p: nat, d: seq<byte>)
    requires at + |data| <= |buf| && Reads(buf, p, d) && p + |d| <= at
    ensures Reads(Splice(buf, at, data), p, d)
  {
    assert Splice(buf, at, data)[p..p + |d|] == buf[p..p + |d|];
  }

  /** Writing from the k-th offset on keeps the tensors before it. */
  lemma SpliceKeeps(s: Store, ids: seq<nat>, buf: seq<byte>, k: nat, data: seq<byte>)
    requires AllStored(s, ids) && k < |ids| && LoadedUpTo(s, ids, buf, k) && Offset(s, ids, k) + |data| <= |buf|
    ensures LoadedUpTo(s, ids, Splice(buf, Offset(s, ids, k), data), k)
  {
    var at := Offset(s, ids, k);
    forall i: nat | i < k ensures Reads(Splice(buf, at, data), Offset(s, ids, i), Payload(s, ids, i)) {
      OffsetsApart(s, ids, i, k);
      SpliceFrame(buf, at, data, Offset(s, ids, i), Payload(s, ids, i));
    }
  }

  /** Writing tensor k into its slot loads one more tensor. */
  lemma SpliceLoads(s: Store, ids: seq<nat>, buf: seq<byte>, k: nat)
    requires AllStored(s, ids) && k < |ids| && |buf| == ByteSize(s, ids) && LoadedUpTo(s, ids, buf, k)
    ensures Offset(s, ids, k) + |Payload(s, ids, k)| <= |buf|
    ensures LoadedUpTo(s, ids, Splice(buf, Offset(s, ids, k), Payload(s, ids, k)), k + 1)
  {
    SlotInside(s, ids, k);
    SpliceKeeps(s, ids, buf, k, Payload(s, ids, k));
  }

  /** Two loaded buffers agree on every payload byte. */
  lemma LoadersAgree(s: Store, ids: seq<nat>, a: seq<byte>, b: seq<byte>, k: nat, p: nat)
    requires AllStored(s, ids) && Loaded(s, ids, a) && Loaded(s, ids, b)
    requires k < |ids| && p < SizeOf(s, ids[k])
    ensures Offset(s, ids, k) + p < |a| == |b| && a[Offset(s, ids, k) + p] == b[Offset(s, ids, k) + p]
  {
    var at, data := Offset(s, ids, k), Payload(s, ids, k);
    assert Reads(a, at, data) && Reads(b, at, data);
    assert a[at..at + |data|][p] == b[at..at + |data|][p];
  }

  // ---------------------------------------------------------------- the three loaders

  /** One ReadTensor per tensor. */
  method LoadEach(s: Store, ids: seq<nat>, host: array<byte>)
    requires AllStored(s, ids) && host.Length == ByteSize(s, ids)
    modifies host
    ensures Loaded(s, ids, host[..])
  {
    var at := 0;
    for k := 0 to |ids|
      invariant at == Offset(s, ids, k)
      invariant LoadedUpTo(s, ids, host[..], k)
    {
      SpliceLoads(s, ids, host[..], k);
      assert ExtentOk(s, s.index[ids[k]]);
      CopyInto(host, at, ReadTensor(s, ids[k]));
      at := at + Align(s.index[ids[k]].size);
    }
  }

  /** Tensor k lies in `file` where a back-to-back layout from `start` puts it. */
  predicate InLine(s: Store, ids: seq<nat>, k: nat, file: nat, start: nat)
    requires k < |ids|
  {
    ids[k] in s.index && s.index[ids[k]].file == file && s.index[ids[k]].offset == start + Offset(s, ids, k)
  }

  /** The first n tensors lie back to back in one file from `start` on. */
  ghost predicate Contiguous(s: Store, ids: seq<nat>, n: nat, file: nat, start: nat)
    requires n <= |ids|
  {
    forall k: nat :: k < n ==> InLine(s, ids, k, file, start)
  }

  lemma StoredExtent(s: Store, ids: seq<nat>, k: nat)
    requires AllStored(s, ids) && k < |ids|
    ensures ids[k] in s.index && ExtentOk(s, s.index[ids[k]])
  {
  }

  /** A contiguous node is one range of the file, its padding included. */
  lemma {:induction false} ContiguousInFile(s: Store, ids: seq<nat>, n: nat, file: nat, start: nat)
    requires n <= |ids| && Contiguous(s, ids, n, file, start) && Offset(s, ids, n) > 0
    requires forall k :: 0 <= k < n ==> ids[k] in s.index && ExtentOk(s, s.index[ids[k]])
    ensures start + Offset(s, ids, n) <= |FileOf(s.files, file)|
  {
    assert InLine(s, ids, n - 1, file, start);
    if s.index[ids[n - 1]].size == 0 {
      ContiguousInFile(s, ids, n - 1, file, start);
    }
  }

  lemma SubSlice(file: seq<byte>, start: nat, total: nat, at: nat, n: nat)
    requires start + total <= |file| && at + n <= total
    ensures file[start..start + total][at..at + n] == file[start + at..start + at + n]
  {
    var part, want := file[start..start + total][at..at + n], file[start + at..start + at + n];
    assert forall p :: 0 <= p < n ==> part[p] == want[p];
  }

  lemma BulkTensor(s: Store, ids: seq<nat>, file: nat, start: nat, k: nat)
    requires AllStored(s, ids) && k < |ids| && InLine(s, ids, k, file, start)
    requires start + ByteSize(s, ids) <= |FileOf(s.files, file)|
    ensures Reads(FileOf(s.files, file)[start..start + ByteSize(s, ids)], Offset(s, ids, k), Payload(s, ids, k))
  {
    SlotInside(s, ids, k);
    StoredExtent(s, ids, k);
    var whole, at, n := FileOf(s.files, file), Offset(s, ids, k), SizeOf(s, ids[k]);
    SubSlice(whole, start, ByteSize(s, ids), at, n);
    if n > 0 {
      assert Payload(s, ids, k) == whole[start + at..start + at + n];
    }
  }

  lemma BulkLoads(s: Store, ids: seq<nat>, file: nat, start: nat)
    requires AllStored(s, ids) && Contiguous(s, ids, |ids|, file, start) && ByteSize(s, ids) > 0
    ensures start + ByteSize(s, ids) <= |FileOf(s.files, file)|
    ensures Loaded(s, ids, FileOf(s.files, file)[start..start + ByteSize(s, ids)])
  {
    ContiguousInFile(s, ids, |ids|, file, start);
    forall k: nat | k < |ids|
      ensures Reads(FileOf(s.files, file)[start..start + ByteSize(s, ids)], Offset(s, ids, k), Payload(s, ids, k))
    {
      BulkTensor(s, ids, file, start, k);
    }
  }

  /** Partition numbers never fall along the packing order. */
  lemma {:induction false} FilesAscend(s: Store, order: seq<nat>, i: nat, j: nat)
    requires Packed(s, order) && i <= j < |order|
    ensures order[i] in s.index && order[j] in s.index && s.index[order[i]].file <= s.index[order[j]].file
    decreases j
  {
    assert PackedAt(s, order, i) && PackedAt(s, order, j);
    if i < j { FilesAscend(s, order, i, j - 1); }
  }

  lemma {:induction false} PackedInLine(s: Store, order: seq<nat>, i: nat, n: nat, k: nat)
    requires Packed(s, order) && k < n && i + n <= |order|
    requires s.index[order[i]].file == s.index[order[i + n - 1]].file
    ensures order[i] in s.index && InLine(s, order[i..i + n], k, s.index[order[i]].file, s.index[order[i]].offset)
    decreases k
  {
    FilesAscend(s, order, i, i + k);
    FilesAscend(s, order, i + k, i + n - 1);
    if k > 0 {
      PackedInLine(s, order, i, n, k - 1);
      FilesAscend(s, order, i, i + k - 1);
      assert PackedAt(s, order, i + k) && PackedAt(s, order, i + k - 1);
    }
  }

  /** A node whose tensors were first stored one after the other is contiguous exactly if its first
      and last tensor are in one partition. */
  lemma StoredTogetherIff(puts: seq<Put>, i: nat, n: nat)
    requires StoreAll(EMPTY, puts).Stored? && 0 < n && i + n <= |FirstStores([], puts)|
    ensures var s, order := StoreAll(EMPTY, puts).store, FirstStores([], puts);
            && order[i] in s.index && order[i + n - 1] in s.index
            && (Contiguous(s, order[i..i + n], n, s.index[order[i]].file, s.index[order[i]].offset) <==>
                s.index[order[i]].file == s.index[order[i + n - 1]].file)
  {
    var s, order := StoreAll(EMPTY, puts).store, FirstStores([], puts);
    StoresArePacked(puts);
    assert PackedAt(s, order, i) && PackedAt(s, order, i + n - 1);
    var ids, file, start := order[i..i + n], s.index[order[i]].file, s.index[order[i]].offset;
    if file == s.index[order[i + n - 1]].file {
      forall k: nat | k < n ensures InLine(s, ids, k, file, start) { PackedInLine(s, order, i, n, k); }
    } else {
      assert !InLine(s, ids, n - 1, file, start);
    }
  }

  /** The contiguity scan of SetModuleMemoryFromDisk. */
  method ScanContiguous(s: Store, ids: seq<nat>) returns (contiguous: bool, file: nat, start: nat, total: nat)
    requires |ids| > 0 && forall k :: 0 <= k < |ids| ==> ids[k] in s.index
    ensures contiguous <==> Contiguous(s, ids, |ids|, s.index[ids[0]].file, s.index[ids[0]].offset)
    ensures contiguous ==> total == ByteSize(s, ids)
    ensures file == s.index[ids[0]].file && start == s.index[ids[0]].offset
  {
    contiguous := true;
    file, start := s.index[ids[0]].file, s.index[ids[0]].offset;
    var expected := start;
    total := 0;
    for k := 0 to |ids|
      invariant total == Offset(s, ids, k) && expected == start + total
      invariant Contiguous(s, ids, k, file, start)
    {
      var x := s.index[ids[k]];
      if x.file != file || x.offset != expected {
        assert !InLine(s, ids, k, file, start);
        return false, file, start, total;
      }
      expected := expected + Align(x.size);
      total := total + Align(x.size);
    }
  }

  /** ReadBulk of a whole buffer. */
  method ReadBulk(file: seq<byte>, start: nat, total: nat, host: array<byte>)
    requires total == host.Length && start + total <= |file|
    modifies host
    ensures host[..] == file[start..start + total]
  {
    SpliceWhole(host[..], file[start..start + total]);
    CopyInto(host, 0, file[start..start + total]);
  }

  /** SetModuleMemoryFromDisk: one bulk read if the extents are contiguous, else one read each. */
  method LoadFromDisk(s: Store, ids: seq<nat>, host: array<byte>)
    requires AllStored(s, ids) && host.Length == ByteSize(s, ids)
    modifies host
    ensures Loaded(s, ids, host[..])
  {
    if |ids| == 0 {
      return;
    }
    var contiguous, file, start, total := ScanContiguous(s, ids);
    if contiguous && total > 0 {
      BulkLoads(s, ids, file, start);
      ReadBulk(FileOf(s.files, file), start, total, host);
    } else {
      LoadEach(s, ids, host);
    }
  }

  /** The bytes of one tensor out of the image of its partition, or read from its own. */
  method FetchBytes(s: Store, ids: seq<nat>, k: nat, file: nat, image: seq<byte>) returns (data: seq<byte>)
    requires AllStored(s, ids) && k < |ids| && image == FileOf(s.files, file)
    ensures data == Payload(s, ids, k)
  {
    StoredExtent(s, ids, k);
    var x := s.index[ids[k]];
    if x.file == file {
      data := if x.size == 0 then [] else image[x.offset..x.offset + x.size];
    } else {
      data := ReadTensor(s, ids[k]);
    }
  }

  /** One tensor put at its offset. */
  method CopyTensor(s: Store, ids: seq<nat>, k: nat, at: nat, file: nat, image: seq<byte>, host: array<byte>)
    requires AllStored(s, ids) && host.Length == ByteSize(s, ids) && k < |ids| && at == Offset(s, ids, k)
    requires image == FileOf(s.files, file) && LoadedUpTo(s, ids, host[..], k)
    modifies host
    ensures LoadedUpTo(s, ids, host[..], k + 1)
  {
    SpliceLoads(s, ids, host[..], k);
    var data := FetchBytes(s, ids, k, file, image);
    CopyInto(host, at, data);
  }

  /** The sparse loader of InitializeTopology: tensors of partition `file` are copied out of its
      whole-file image, the others read one by one. */
  method LoadFromPartition(s: Store, ids: seq<nat>, file: nat, host: array<byte>) returns (fallback: bool)
    requires AllStored(s, ids) && host.Length == ByteSize(s, ids)
    modifies host
    ensures Loaded(s, ids, host[..])
    ensures fallback <==> exists k :: 0 <= k < |ids| && s.index[ids[k]].file != file
  {
    var image := FileOf(s.files, file);
    var at := 0;
    fallback := false;
    for k := 0 to |ids|
      invariant at == Offset(s, ids, k)
      invariant LoadedUpTo(s, ids, host[..], k)
      invariant fallback <==> exists i :: 0 <= i < k && s.index[ids[i]].file != file
    {
      CopyTensor(s, ids, k, at, file, image, host);
      var x := s.index[ids[k]];
      if x.file != file {
        fallback := true;
      }
      at := at + Align(x.size);
    }
  }
}
