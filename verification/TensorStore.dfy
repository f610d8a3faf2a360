/** The tensor store: aligned extents in partition files, refining a map from tensor id to bytes. */
module TensorStore {
  import opened Bytes
  import opened Chunks

  /** 10 GiB. */
  const PARTITION_SIZE := 0x2_8000_0000

  datatype Extent = Extent(file: nat, offset: nat, size: nat)

  /** `fileId` and `fileOffset` are the cursor for the next new tensor. */
  datatype Store = Store(fileId: nat, fileOffset: nat, index: map<nat, Extent>, files: map<nat, seq<byte>>)

  datatype Outcome = Stored(store: Store) | SizeMismatch

  const EMPTY := Store(0, 0, map[], map[])

  /** A partition that was never opened is created empty. */
  function FileOf(files: map<nat, seq<byte>>, f: nat): seq<byte> {
    if f in files then files[f] else []
  }

  /** Where a new tensor of `size` bytes goes: the current partition, or the next if it does not fit. */
  function Place(s: Store, size: nat): Extent {
    if s.fileOffset + Align(size) > PARTITION_SIZE then Extent(s.fileId + 1, 0, size)
    else Extent(s.fileId, s.fileOffset, size)
  }

  function WriteExtent(files: map<nat, seq<byte>>, x: Extent, data: seq<byte>): map<nat, seq<byte>> {
    files[x.file := PWrite(FileOf(files, x.file), x.offset, Pad(data))]
  }

  /** StoreTensor: a known id is rewritten in place and must keep its size. */
  function StoreTensor(s: Store, id: nat, data: seq<byte>): Outcome {
    if id in s.index then
      if s.index[id].size != |data| then SizeMismatch
      else Stored(s.(files := WriteExtent(s.files, s.index[id], data)))
    else
      var x := Place(s, |data|);
      Stored(Store(x.file, x.offset + Align(|data|), s.index[id := x], WriteExtent(s.files, x, data)))
  }

  // ---------------------------------------------------------------- layout

  function End(x: Extent): nat { x.offset + Align(x.size) }

  /** Inside its file, before the cursor, and within a partition unless alone in one. */
  predicate ExtentOk(s: Store, x: Extent) {
    && (x.size > 0 ==> End(x) <= |FileOf(s.files, x.file)|)
    && (x.file < s.fileId || (x.file == s.fileId && End(x) <= s.fileOffset))
    && (x.offset == 0 || End(x) <= PARTITION_SIZE)
  }

  predicate Disjoint(x: Extent, y: Extent) {
    x.file != y.file || End(x) <= y.offset || End(y) <= x.offset
  }

  /** Two tensors never share a byte, padding included. */
  predicate Apart(s: Store, a: nat, b: nat) {
    a in s.index && b in s.index && a != b ==> Disjoint(s.index[a], s.index[b])
  }

  ghost predicate Valid(s: Store) {
    && (forall a :: a in s.index ==> ExtentOk(s, s.index[a]))
    && (forall a: nat, b: nat :: Apart(s, a, b))
  }

  /** ReadTensor. */
  function ReadTensor(s: Store, id: nat): seq<byte>
    requires id in s.index && ExtentOk(s, s.index[id])
  {
    Slice(s.files, s.index[id])
  }

  /** The map the store stands for. */
  ghost function Contents(s: Store): map<nat, seq<byte>>
    requires Valid(s)
  {
    map id | id in s.index :: ReadTensor(s, id)
  }

  lemma EmptyIsValid()
    ensures Valid(EMPTY) && Contents(EMPTY) == map[]
  {
  }

  /** A write into one extent leaves every disjoint extent alone. */
  lemma WriteFrame(files: map<nat, seq<byte>>, x: Extent, data: seq<byte>, y: Extent)
    requires x.size == |data| && Disjoint(x, y) && End(y) <= |FileOf(files, y.file)|
    ensures var now := WriteExtent(files, x, data);
            && End(y) <= |FileOf(now, y.file)|
            && FileOf(now, y.file)[y.offset..y.offset + y.size] == FileOf(files, y.file)[y.offset..y.offset + y.size]
  {
    var now := FileOf(WriteExtent(files, x, data), y.file);
    if x.file == y.file {
      assert forall p :: y.offset <= p < End(y) ==> now[p] == FileOf(files, y.file)[p];
    }
  }

  lemma WriteReads(files: map<nat, seq<byte>>, x: Extent, data: seq<byte>)
    requires x.size == |data| && x.size > 0
    ensures var now := FileOf(WriteExtent(files, x, data), x.file);
            End(x) <= |now| && now[x.offset..x.offset + x.size] == data
  {
    assert Pad(data) != [];
    var now := FileOf(WriteExtent(files, x, data), x.file);
    assert forall p :: x.offset <= p < x.offset + x.size ==> now[p] == data[p - x.offset];
  }

  lemma PlaceIsNew(s: Store, size: nat)
    requires Valid(s)
    ensures var x := Place(s, size); x.offset == 0 || End(x) <= PARTITION_SIZE
    ensures forall a :: a in s.index ==> Disjoint(s.index[a], Place(s, size))
  {
    forall a | a in s.index ensures Disjoint(s.index[a], Place(s, size)) {
      assert ExtentOk(s, s.index[a]);
    }
  }

  lemma StoreKeepsValid(s: Store, id: nat, data: seq<byte>)
    requires Valid(s) && StoreTensor(s, id, data).Stored?
    ensures Valid(StoreTensor(s, id, data).store)
  {
    var t := StoreTensor(s, id, data).store;
    PlaceIsNew(s, |data|);
    var x := t.index[id];
    forall a: nat | a in t.index && a != id ensures Disjoint(t.index[a], x) {
      assert Apart(s, a, id);
    }
    forall a: nat, b: nat ensures Apart(t, a, b) {
      assert Apart(s, a, b);
    }
    forall a | a in t.index ensures ExtentOk(t, t.index[a]) {
      SliceAfterWrite(s.files, x, data, t.index[a]);
    }
  }

  /** The bytes of an extent. */
  function Slice(files: map<nat, seq<byte>>, x: Extent): seq<byte>
    requires x.size > 0 ==> End(x) <= |FileOf(files, x.file)|
  {
    if x.size == 0 then [] else FileOf(files, x.file)[x.offset..x.offset + x.size]
  }

  lemma SliceAfterWrite(files: map<nat, seq<byte>>, x: Extent, data: seq<byte>, y: Extent)
    requires x.size == |data| && (x == y || Disjoint(x, y))
    requires x != y && y.size > 0 ==> End(y) <= |FileOf(files, y.file)|
    ensures y.size > 0 ==> End(y) <= |FileOf(WriteExtent(files, x, data), y.file)|
    ensures Slice(WriteExtent(files, x, data), y) == if x == y then data else Slice(files, y)
  {
    if y.size > 0 {
      if x == y { WriteReads(files, x, data); } else { WriteFrame(files, x, data, y); }
    }
  }

  lemma ReadAfterStore(s: Store, id: nat, data: seq<byte>, t: Store, a: nat)
    requires StoreTensor(s, id, data) == Stored(t) && a in t.index && ExtentOk(t, t.index[a])
    requires a != id ==> ExtentOk(s, s.index[a]) && Disjoint(s.index[a], t.index[id])
    ensures ReadTensor(t, a) == if a == id then data else ReadTensor(s, a)
  {
    SliceAfterWrite(s.files, t.index[id], data, t.index[a]);
  }

  lemma SameMap(m: map<nat, seq<byte>>, n: map<nat, seq<byte>>)
    requires m.Keys == n.Keys && forall a :: a in m ==> m[a] == n[a]
    ensures m == n
  {
  }

  lemma KeysAfterStore(s: Store, id: nat, data: seq<byte>, t: Store)
    requires StoreTensor(s, id, data) == Stored(t)
    ensures t.index.Keys == s.index.Keys + {id}
    ensures forall a :: a in t.index && a != id ==> a in s.index && s.index[a] == t.index[a]
  {
  }

  lemma ReadsAfterStore(s: Store, id: nat, data: seq<byte>, t: Store)
    requires Valid(s) && Valid(t) && StoreTensor(s, id, data) == Stored(t)
    ensures forall a :: a in t.index ==> ReadTensor(t, a) == if a in s.index && a != id then ReadTensor(s, a) else data
  {
    KeysAfterStore(s, id, data, t);
    forall a | a in t.index ensures ReadTensor(t, a) == if a in s.index && a != id then ReadTensor(s, a) else data {
      assert Apart(t, a, id);
      ReadAfterStore(s, id, data, t, a);
    }
  }

  lemma ContentsAfterStore(s: Store, id: nat, data: seq<byte>, t: Store)
    requires Valid(s) && Valid(t) && StoreTensor(s, id, data) == Stored(t)
    ensures Contents(t) == Contents(s)[id := data]
  {
    KeysAfterStore(s, id, data, t);
    ReadsAfterStore(s, id, data, t);
    SameMap(Contents(t), Contents(s)[id := data]);
  }

  /** One StoreTensor is one update of the map: it fails exactly on a size change,
      binds the stored id to the stored bytes, and changes no other tensor. */
  lemma StoreRefinesMap(s: Store, id: nat, data: seq<byte>)
    requires Valid(s)
    ensures StoreTensor(s, id, data).SizeMismatch? <==> id in s.index && s.index[id].size != |data|
    ensures StoreTensor(s, id, data).Stored? ==>
              var t := StoreTensor(s, id, data).store;
              Valid(t) && Contents(t) == Contents(s)[id := data]
  {
    if StoreTensor(s, id, data).Stored? {
      StoreKeepsValid(s, id, data);
      ContentsAfterStore(s, id, data, StoreTensor(s, id, data).store);
    }
  }

  // ---------------------------------------------------------------- any sequence of stores

  datatype Put = Put(id: nat, data: seq<byte>)

  function StoreAll(s: Store, puts: seq<Put>): Outcome
    decreases |puts|
  {
    if puts == [] then Stored(s) else
      match StoreTensor(s, puts[0].id, puts[0].data)
      case SizeMismatch => SizeMismatch
      case Stored(t) => StoreAll(t, puts[1..])
  }

  /** The map after the same puts. */
  function PutAll(m: map<nat, seq<byte>>, puts: seq<Put>): map<nat, seq<byte>>
    decreases |puts|
  {
    if puts == [] then m else PutAll(m[puts[0].id := puts[0].data], puts[1..])
  }

  /** Every repeated id keeps the size it has. */
  predicate SizesKept(m: map<nat, seq<byte>>, puts: seq<Put>)
    decreases |puts|
  {
    puts == [] ||
    ((puts[0].id in m ==> |m[puts[0].id]| == |puts[0].data|) && SizesKept(m[puts[0].id := puts[0].data], puts[1..]))
  }

  /** Any sequence of stores succeeds exactly when sizes are kept, and then every tensor
      reads back the bytes last stored for it. */
  lemma {:induction false} StoresRefineMap(s: Store, puts: seq<Put>)
    requires Valid(s)
    ensures StoreAll(s, puts).Stored? <==> SizesKept(Contents(s), puts)
    ensures StoreAll(s, puts).Stored? ==>
              var t := StoreAll(s, puts).store;
              Valid(t) && Contents(t) == PutAll(Contents(s), puts)
    decreases |puts|
  {
    if puts != [] {
      var id, data := puts[0].id, puts[0].data;
      StoreRefinesMap(s, id, data);
      SizeInMap(s, id);
      if StoreTensor(s, id, data).Stored? {
        StoresRefineMap(StoreTensor(s, id, data).store, puts[1..]);
      }
    }
  }

  /** The last put of an id among the first `n`. */
  ghost predicate LastPut(puts: seq<Put>, id: nat, i: nat) {
    i < |puts| && puts[i].id == id && forall j :: i < j < |puts| ==> puts[j].id != id
  }

  lemma {:induction false} PutAllLast(m: map<nat, seq<byte>>, puts: seq<Put>, id: nat, i: nat)
    requires LastPut(puts, id, i)
    ensures id in PutAll(m, puts) && PutAll(m, puts)[id] == puts[i].data
    decreases |puts|
  {
    if i > 0 {
      PutAllLast(m[puts[0].id := puts[0].data], puts[1..], id, i - 1);
    } else {
      PutAllUntouched(m[id := puts[0].data], puts[1..], id);
    }
  }

  lemma {:induction false} PutAllUntouched(m: map<nat, seq<byte>>, puts: seq<Put>, id: nat)
    requires id in m && forall j :: 0 <= j < |puts| ==> puts[j].id != id
    ensures id in PutAll(m, puts) && PutAll(m, puts)[id] == m[id]
    decreases |puts|
  {
    if puts != [] {
      PutAllUntouched(m[puts[0].id := puts[0].data], puts[1..], id);
    }
  }

  /** Every extent, and the cursor, lies on an alignment boundary. */
  ghost predicate AlignedLayout(s: Store) {
    && s.fileOffset % ALIGNMENT == 0
    && forall a :: a in s.index ==> s.index[a].offset % ALIGNMENT == 0
  }

  lemma {:induction false} StoresKeepAligned(s: Store, puts: seq<Put>)
    requires AlignedLayout(s) && StoreAll(s, puts).Stored?
    ensures AlignedLayout(StoreAll(s, puts).store)
    decreases |puts|
  {
    if puts != [] {
      var size := |puts[0].data|;
      SumAligned(s.fileOffset, Align(size));
      StoresKeepAligned(StoreTensor(s, puts[0].id, puts[0].data).store, puts[1..]);
    }
  }

  /** From an empty index: ReadTensor returns exactly the bytes last stored for the id,
      and all extents are aligned, inside their files and pairwise disjoint. */
  lemma ReadsLastStored(puts: seq<Put>, id: nat, i: nat)
    requires StoreAll(EMPTY, puts).Stored? && LastPut(puts, id, i)
    ensures
      var t := StoreAll(EMPTY, puts).store;
      && Valid(t) && AlignedLayout(t)
      && id in t.index && ExtentOk(t, t.index[id]) && t.index[id].size == |puts[i].data|
      && ReadTensor(t, id) == puts[i].data
  {
    EmptyIsValid();
    StoresRefineMap(EMPTY, puts);
    StoresKeepAligned(EMPTY, puts);
    PutAllLast(map[], puts, id, i);
    var t := StoreAll(EMPTY, puts).store;
    assert id in Contents(t);
    assert Contents(t)[id] == ReadTensor(t, id);
  }

  // ---------------------------------------------------------------- more stores

  lemma StoreAllCons(s: Store, put: Put, rest: seq<Put>)
    ensures StoreAll(s, [put] + rest) ==
            match StoreTensor(s, put.id, put.data) case SizeMismatch => SizeMismatch case Stored(t) => StoreAll(t, rest)
  {
    assert ([put] + rest)[1..] == rest;
  }

  lemma {:induction false} StoreAllAppend(s: Store, puts: seq<Put>, t: Store, more: seq<Put>)
    requires StoreAll(s, puts) == Stored(t)
    ensures StoreAll(s, puts + more) == StoreAll(t, more)
    decreases |puts|
  {
    if puts == [] {
      assert puts + more == more;
    } else {
      var put, rest := puts[0], puts[1..];
      assert puts == [put] + rest && puts + more == [put] + (rest + more);
      StoreAllCons(s, put, rest);
      StoreAllCons(s, put, rest + more);
      StoreAllAppend(StoreTensor(s, put.id, put.data).store, rest, t, more);
    }
  }

  lemma StoreAllSnoc(puts: seq<Put>, s: Store, put: Put)
    requires StoreAll(EMPTY, puts) == Stored(s)
    ensures StoreAll(EMPTY, puts + [put]) == StoreTensor(s, put.id, put.data)
  {
    StoreAllAppend(EMPTY, puts, s, [put]);
    StoreAllCons(s, put, []);
    assert [put] + [] == [put];
  }

  /** An extent never moves. */
  lemma {:induction false} ExtentsStay(s: Store, puts: seq<Put>, t: Store)
    requires StoreAll(s, puts) == Stored(t)
    ensures forall id :: id in s.index ==> id in t.index && t.index[id] == s.index[id]
    decreases |puts|
  {
    if puts != [] {
      ExtentsStay(StoreTensor(s, puts[0].id, puts[0].data).store, puts[1..], t);
    }
  }

  // ---------------------------------------------------------------- packing

  /** The ids in the order of their first store, after those in `known`. */
  function FirstStores(known: seq<nat>, puts: seq<Put>): seq<nat>
    decreases |puts|
  {
    if puts == [] then known
    else FirstStores(if puts[0].id in known then known else known + [puts[0].id], puts[1..])
  }

  /** The first tensor starts partition 0, or partition 1 if it is longer than a partition. */
  predicate Opens(x: Extent) {
    x.offset == 0 && x.file == if Align(x.size) <= PARTITION_SIZE then 0 else 1
  }

  /** The next tensor lies right behind the previous one, or starts the next partition because it
      does not fit behind it. */
  predicate Follows(prev: Extent, x: Extent) {
    if End(prev) + Align(x.size) <= PARTITION_SIZE then x.file == prev.file && x.offset == End(prev)
    else x.file == prev.file + 1 && x.offset == 0
  }

  predicate PackedAt(s: Store, order: seq<nat>, k: nat) {
    k < |order| ==>
      && order[k] in s.index
      && if k == 0 then Opens(s.index[order[0]])
         else order[k - 1] in s.index && Follows(s.index[order[k - 1]], s.index[order[k]])
  }

  /** The tensors lie one behind the other in the given order, and the cursor behind the last. */
  ghost predicate Packed(s: Store, order: seq<nat>) {
    && (forall a :: a in s.index <==> a in order)
    && (forall k: nat :: PackedAt(s, order, k))
    && (if order == [] then s.fileId == 0 && s.fileOffset == 0
        else var last := order[|order| - 1]; last in s.index && s.fileId == s.index[last].file && s.fileOffset == End(s.index[last]))
  }

  lemma PackOne(s: Store, order: seq<nat>, id: nat, data: seq<byte>, t: Store)
    requires Packed(s, order) && StoreTensor(s, id, data) == Stored(t)
    ensures Packed(t, if id in order then order else order + [id])
  {
    var now := if id in order then order else order + [id];
    forall k: nat ensures PackedAt(t, now, k) { assert PackedAt(s, order, k); }
  }

  lemma {:induction false} PackAll(s: Store, order: seq<nat>, puts: seq<Put>, t: Store)
    requires Packed(s, order) && StoreAll(s, puts) == Stored(t)
    ensures Packed(t, FirstStores(order, puts))
    decreases |puts|
  {
    if puts != [] {
      var id, m := puts[0].id, StoreTensor(s, puts[0].id, puts[0].data).store;
      PackOne(s, order, id, puts[0].data, m);
      PackAll(m, if id in order then order else order + [id], puts[1..], t);
    }
  }

  /** From an empty index: whatever is stored, the tensors are packed in the order of their first store. */
  lemma StoresArePacked(puts: seq<Put>)
    requires StoreAll(EMPTY, puts).Stored?
    ensures Packed(StoreAll(EMPTY, puts).store, FirstStores([], puts))
  {
    forall k: nat ensures PackedAt(EMPTY, [], k) { }
    PackAll(EMPTY, [], puts, StoreAll(EMPTY, puts).store);
  }

  // ---------------------------------------------------------------- the handle

  /** ArcherTensorHandle with its index and files, from an empty index on. */
  class TensorHandle {
    var fileId: nat
    var fileOffset: nat
    var index: map<nat, Extent>
    var files: map<nat, seq<byte>>
    /** The stores that succeeded. */
    ghost var puts: seq<Put>

    function Snapshot(): Store
      reads this
    {
      Store(fileId, fileOffset, index, files)
    }

    ghost predicate Ok()
      reads this
    {
      Valid(Snapshot()) && StoreAll(EMPTY, puts) == Stored(Snapshot())
    }

    /** What the handle stands for. */
    ghost function Tensors(): map<nat, seq<byte>>
      requires Valid(Snapshot())
      reads this
    {
      Contents(Snapshot())
    }

    constructor ()
      ensures Ok() && puts == [] && Tensors() == map[]
    {
      fileId, fileOffset, index, files := 0, 0, map[], map[];
      puts := [];
    }

    /** One update of the map; `ok` is false, and nothing changes, where the program stops because
        a stored tensor would change its size. */
    method Save(id: nat, data: seq<byte>) returns (ok: bool)
      requires Ok()
      modifies this
      ensures Ok()
      ensures ok <==> (id in old(Tensors()) ==> |old(Tensors())[id]| == |data|)
      ensures Tensors() == if ok then old(Tensors())[id := data] else old(Tensors())
      ensures puts == if ok then old(puts) + [Put(id, data)] else old(puts)
      ensures forall x :: x in old(index) ==> x in index && index[x] == old(index[x])
      ensures Packed(Snapshot(), FirstStores([], puts))
    {
      StoreRefinesMap(Snapshot(), id, data);
      SizeInMap(Snapshot(), id);
      StoreAllSnoc(puts, Snapshot(), Put(id, data));
      ok := StoreBytes(id, data);
      if ok {
        puts := puts + [Put(id, data)];
      }
      StoresArePacked(puts);
    }

    /** The layout decision and the write. */
    method StoreBytes(id: nat, data: seq<byte>) returns (ok: bool)
      modifies this
      ensures puts == old(puts)
      ensures if ok then StoreTensor(old(Snapshot()), id, data) == Stored(Snapshot())
              else StoreTensor(old(Snapshot()), id, data).SizeMismatch? && Snapshot() == old(Snapshot())
    {
      var aligned := Align(|data|);
      var x: Extent;
      if id in index {
        if index[id].size != |data| {
          return false;
        }
        x := index[id];
      } else {
        if fileOffset + aligned > PARTITION_SIZE {
          fileId := fileId + 1;
          fileOffset := 0;
        }
        x := Extent(fileId, fileOffset, |data|);
        fileOffset := fileOffset + aligned;
        index := index[id := x];
      }
      var file := if x.file in files then files[x.file] else [];
      files := files[x.file := PWrite(file, x.offset, Pad(data))];
      ok := true;
    }

    /** ReadTensor. */
    method Get(id: nat) returns (data: seq<byte>)
      requires Ok() && id in index
      ensures id in Tensors() && data == Tensors()[id]
    {
      var x := index[id];
      assert ExtentOk(Snapshot(), x);
      data := if x.size == 0 then [] else files[x.file][x.offset..x.offset + x.size];
    }
  }

  lemma SizeInMap(s: Store, id: nat)
    requires Valid(s)
    ensures id in s.index <==> id in Contents(s)
    ensures id in s.index ==> |Contents(s)[id]| == s.index[id].size
  {
    if id in s.index { assert ExtentOk(s, s.index[id]); }
  }
}
