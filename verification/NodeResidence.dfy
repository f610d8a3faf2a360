/** A node's tensors on disk, in host memory or on a GPU. */
module NodeResidence {
  import opened Bytes
  import opened TensorStore
  import opened NodeLoader

  datatype Device = Disk | Cpu | Cuda(gpu: nat)

  /** What the tensor object of an index entry points at. */
  datatype View = Placeholder | Over(buf: array<byte>, at: nat)

  /** The tensor objects of the index, one per entry, shared by all nodes. */
  class TensorTable {
    var views: map<nat, View>

    constructor ()
      ensures views == map[]
    {
      views := map[];
    }
  }

  predicate SameType(a: Device, b: Device) {
    (a.Disk? && b.Disk?) || (a.Cpu? && b.Cpu?) || (a.Cuda? && b.Cuda?)
  }

  /** The pipelined path: each tensor is read into the host buffer and its aligned slot copied on. */
  method LoadBoth(s: Store, ids: seq<nat>, host: array<byte>, dev: array<byte>)
    requires AllStored(s, ids) && host.Length == dev.Length == ByteSize(s, ids) && host != dev
    modifies host, dev
    ensures Loaded(s, ids, host[..]) && Loaded(s, ids, dev[..])
  {
    var at := 0;
    for k := 0 to |ids|
      invariant at == Offset(s, ids, k)
      invariant LoadedUpTo(s, ids, host[..], k)
      invariant LoadedUpTo(s, ids, dev[..], k)
    {
      ReadTensorInto(s, ids, k, at, host);
      SlotInside(s, ids, k);
      CopySlot(s, ids, k, at, host, dev);
      at := at + Align(s.index[ids[k]].size);
    }
  }

  method ReadTensorInto(s: Store, ids: seq<nat>, k: nat, at: nat, host: array<byte>)
    requires AllStored(s, ids) && host.Length == ByteSize(s, ids) && k < |ids| && at == Offset(s, ids, k)
    requires LoadedUpTo(s, ids, host[..], k)
    modifies host
    ensures LoadedUpTo(s, ids, host[..], k + 1)
  {
    SpliceLoads(s, ids, host[..], k);
    StoredExtent(s, ids, k);
    CopyInto(host, at, ReadTensor(s, ids[k]));
  }

  /** The asynchronous copy of one aligned slot. */
  method CopySlot(s: Store, ids: seq<nat>, k: nat, at: nat, host: array<byte>, dev: array<byte>)
    requires AllStored(s, ids) && host.Length == dev.Length == ByteSize(s, ids) && host != dev
    requires k < |ids| && at == Offset(s, ids, k) && at + Align(SizeOf(s, ids[k])) <= host.Length
    requires LoadedUpTo(s, ids, host[..], k + 1) && LoadedUpTo(s, ids, dev[..], k)
    modifies dev
    ensures LoadedUpTo(s, ids, dev[..], k + 1)
  {
    var n := Align(s.index[ids[k]].size);
    SlotLoads(s, ids, k, at, n, host[..], dev[..]);
    CopyInto(dev, at, host[at..at + n]);
    assert host[..][at..at + n] == host[at..at + n];
  }

  lemma SlotLoads(s: Store, ids: seq<nat>, k: nat, at: nat, n: nat, host: seq<byte>, dev: seq<byte>)
    requires AllStored(s, ids) && k < |ids| && |host| == |dev|
    requires at == Offset(s, ids, k) && SizeOf(s, ids[k]) <= n && at + n <= |host|
    requires LoadedUpTo(s, ids, host, k + 1) && LoadedUpTo(s, ids, dev, k)
    ensures LoadedUpTo(s, ids, Splice(dev, at, host[at..at + n]), k + 1)
  {
    SpliceKeeps(s, ids, dev, k, host[at..at + n]);
    HostReads(s, ids, k, host);
    CopiedReads(dev, host, at, n, Payload(s, ids, k));
    LoadedSnoc(s, ids, Splice(dev, at, host[at..at + n]), k);
  }

  lemma HostReads(s: Store, ids: seq<nat>, k: nat, host: seq<byte>)
    requires AllStored(s, ids) && k < |ids| && LoadedUpTo(s, ids, host, k + 1)
    ensures Reads(host, Offset(s, ids, k), Payload(s, ids, k))
  {
  }

  lemma LoadedSnoc(s: Store, ids: seq<nat>, buf: seq<byte>, k: nat)
    requires AllStored(s, ids) && k < |ids| && LoadedUpTo(s, ids, buf, k)
    requires Reads(buf, Offset(s, ids, k), Payload(s, ids, k))
    ensures LoadedUpTo(s, ids, buf, k + 1)
  {
  }

  /** Copying a range copies what it holds. */
  lemma CopiedReads(dev: seq<byte>, host: seq<byte>, at: nat, n: nat, data: seq<byte>)
    requires at + n <= |dev| == |host| && Reads(host, at, data) && |data| <= n
    ensures Reads(Splice(dev, at, host[at..at + n]), at, data)
  {
    var after := Splice(dev, at, host[at..at + n]);
    assert forall p :: at <= p < at + n ==> after[p] == host[p];
    assert after[at..at + |data|] == host[at..at + |data|];
  }

  /** Tensor k is a view of `buf` at a place that holds its stored bytes. */
  ghost predicate Shows(s: Store, ids: seq<nat>, views: map<nat, View>, buf: array<byte>, data: seq<byte>, k: nat)
    requires AllStored(s, ids) && k < |ids|
  {
    && ids[k] in views && views[ids[k]].Over? && views[ids[k]].buf == buf
    && Reads(data, views[ids[k]].at, Payload(s, ids, k))
  }

  ghost predicate ShowsUpTo(s: Store, ids: seq<nat>, views: map<nat, View>, buf: array<byte>, data: seq<byte>, n: nat)
    requires AllStored(s, ids) && n <= |ids|
  {
    forall k: nat :: k < n ==> Shows(s, ids, views, buf, data, k)
  }

  /** All tensors are views of `buf`, whose contents are `data`. */
  ghost predicate ShowsAll(s: Store, ids: seq<nat>, views: map<nat, View>, buf: array<byte>, data: seq<byte>)
    requires AllStored(s, ids)
  {
    ShowsUpTo(s, ids, views, buf, data, |ids|)
  }

  lemma SamePayload(s: Store, ids: seq<nat>, i: nat, k: nat)
    requires AllStored(s, ids) && i < |ids| && k < |ids| && ids[i] == ids[k]
    ensures Payload(s, ids, i) == Payload(s, ids, k)
  {
  }

  /** A tensor listed twice keeps only its last view, which reads the same bytes. */
  lemma PointOne(s: Store, ids: seq<nat>, views: map<nat, View>, buf: array<byte>, data: seq<byte>, k: nat)
    requires AllStored(s, ids) && k < |ids| && ShowsUpTo(s, ids, views, buf, data, k)
    requires Reads(data, Offset(s, ids, k), Payload(s, ids, k))
    ensures ShowsUpTo(s, ids, views[ids[k] := Over(buf, Offset(s, ids, k))], buf, data, k + 1)
  {
    var now := views[ids[k] := Over(buf, Offset(s, ids, k))];
    forall i: nat | i < k + 1 ensures Shows(s, ids, now, buf, data, i) {
      if ids[i] == ids[k] {
        SamePayload(s, ids, i, k);
      } else {
        assert Shows(s, ids, views, buf, data, i);
      }
    }
  }

  /** Views of other tensors may change. */
  lemma ShowsFrame(s: Store, ids: seq<nat>, a: map<nat, View>, b: map<nat, View>, buf: array<byte>, data: seq<byte>)
    requires AllStored(s, ids) && ShowsAll(s, ids, a, buf, data) && SameViews(a, b, ids)
    ensures ShowsAll(s, ids, b, buf, data)
  {
    forall k: nat | k < |ids| ensures Shows(s, ids, b, buf, data, k) {
      assert Shows(s, ids, a, buf, data, k) && SameView(a, b, ids[k]);
    }
  }

  ghost predicate SameView(a: map<nat, View>, b: map<nat, View>, id: nat) {
    (id in a <==> id in b) && (id in a ==> a[id] == b[id])
  }

  /** Two tables agree on the tensors of `ids`. */
  ghost predicate SameViews(a: map<nat, View>, b: map<nat, View>, ids: seq<nat>) {
    forall id :: id in ids ==> SameView(a, b, id)
  }

  /** Two tables agree except on the tensors of `ids`. */
  ghost predicate SameElsewhere(a: map<nat, View>, b: map<nat, View>, ids: seq<nat>) {
    forall id :: id !in ids ==> SameView(a, b, id)
  }

  // ---------------------------------------------------------------- layout over time

  /** The tensors have the same extents in both stores. */
  ghost predicate SameLayout(a: Store, b: Store, ids: seq<nat>) {
    forall k :: 0 <= k < |ids| ==> ids[k] in a.index && ids[k] in b.index && a.index[ids[k]] == b.index[ids[k]]
  }

  lemma {:induction false} SameOffset(a: Store, b: Store, ids: seq<nat>, k: nat)
    requires SameLayout(a, b, ids) && k <= |ids|
    ensures Offset(a, ids, k) == Offset(b, ids, k)
  {
    if k > 0 { SameOffset(a, b, ids, k - 1); }
  }

  /** `from` is the store after the first n of the stores `puts`. */
  ghost predicate StoreAfter(puts: seq<Put>, n: nat, from: Store) {
    n <= |puts| && StoreAll(EMPTY, puts[..n]) == TensorStore.Stored(from)
  }

  /** Extents do not move, so an old layout is the present one. */
  lemma LayoutStays(puts: seq<Put>, n: nat, from: Store, now: Store, ids: seq<nat>)
    requires StoreAfter(puts, n, from) && StoreAll(EMPTY, puts) == TensorStore.Stored(now)
    requires forall k :: 0 <= k < |ids| ==> ids[k] in from.index
    ensures SameLayout(from, now, ids)
  {
    assert puts == puts[..n] + puts[n..];
    StoreAllAppend(EMPTY, puts[..n], from, puts[n..]);
    ExtentsStay(from, puts[n..], now);
  }

  class Node {
    const handle: TensorHandle
    const ids: seq<nat>
    const table: TensorTable
    var device: Device
    var host: array?<byte>
    var dev: array?<byte>
    /** How many stores there were when the node was last loaded from disk, and what they left. */
    ghost var loadedAt: nat
    ghost var from: Store

    /** On disk: no buffer. On the CPU: a host buffer only. On a GPU: both. Each buffer holds the
        tensors as they were stored when the node was loaded. */
    ghost predicate Buffers()
      reads this, handle, host, dev
    {
      && handle.Ok() && AllStored(handle.Snapshot(), ids)
      && match device
         case Disk => host == null && dev == null
         case Cpu =>
           && host != null && dev == null
           && StoreAfter(handle.puts, loadedAt, from) && AllStored(from, ids) && Loaded(from, ids, host[..])
         case Cuda(_) =>
           && host != null && dev != null && host != dev
           && StoreAfter(handle.puts, loadedAt, from) && AllStored(from, ids)
           && Loaded(from, ids, host[..]) && Loaded(from, ids, dev[..])
    }

    /** The tensors are views of the buffer on the node's device. */
    ghost predicate Shown()
      requires Buffers()
      reads this, handle, table, host, dev
    {
      match device
      case Disk => true
      case Cpu => ShowsAll(from, ids, table.views, host, host[..])
      case Cuda(_) => ShowsAll(from, ids, table.views, dev, dev[..])
    }

    ghost predicate Valid()
      reads this, handle, table, host, dev
    {
      Buffers() && Shown()
    }

    constructor (handle: TensorHandle, ids: seq<nat>, table: TensorTable)
      requires handle.Ok() && AllStored(handle.Snapshot(), ids)
      ensures Valid() && device == Disk && this.handle == handle && this.ids == ids && this.table == table
    {
      this.handle, this.ids, this.table := handle, ids, table;
      device, host, dev := Disk, null, null;
    }

    /** SetModuleDisk. */
    method DropViews()
      modifies table
      ensures forall id :: id in ids ==> id in table.views && table.views[id].Placeholder?
      ensures SameElsewhere(old(table.views), table.views, ids)
    {
      for k := 0 to |ids|
        invariant forall i :: 0 <= i < k ==> ids[i] in table.views && table.views[ids[i]].Placeholder?
        invariant SameElsewhere(old(table.views), table.views, ids)
      {
        table.views := table.views[ids[k] := Placeholder];
      }
    }

    /** The running-offset loops that build the tensors over a host or device buffer, which was
        filled when the store was `was`. */
    method PointViews(buf: array<byte>, ghost was: Store)
      requires AllStored(was, ids) && Loaded(was, ids, buf[..]) && SameLayout(was, handle.Snapshot(), ids)
      modifies table
      ensures ShowsAll(was, ids, table.views, buf, buf[..])
      ensures SameElsewhere(old(table.views), table.views, ids)
    {
      var at := 0;
      for k := 0 to |ids|
        invariant at == Offset(was, ids, k)
        invariant ShowsUpTo(was, ids, table.views, buf, buf[..], k)
        invariant SameElsewhere(old(table.views), table.views, ids)
      {
        assert Reads(buf[..], Offset(was, ids, k), Payload(was, ids, k));
        PointOne(was, ids, table.views, buf, buf[..], k);
        table.views := table.views[ids[k] := Over(buf, at)];
        at := at + Align(handle.index[ids[k]].size);
      }
    }

    /** Disk to GPU, pipelined. */
    method LoadToDevice()
      requires handle.Ok() && AllStored(handle.Snapshot(), ids)
      modifies this, table
      ensures device == old(device) && host != null && dev != null && host != dev && fresh(host) && fresh(dev)
      ensures loadedAt == |handle.puts| && from == handle.Snapshot()
      ensures Loaded(from, ids, host[..]) && Loaded(from, ids, dev[..]) && ShowsAll(from, ids, table.views, dev, dev[..])
      ensures SameElsewhere(old(table.views), table.views, ids)
    {
      var s := handle.Snapshot();
      var h, d := new byte[ByteSize(s, ids)], new byte[ByteSize(s, ids)];
      host, dev, loadedAt, from := h, d, |handle.puts|, s;
      LoadBoth(s, ids, h, d);
      PointViews(h, s);
      PointViews(d, s);
    }

    /** Disk to CPU. */
    method LoadToHost()
      requires handle.Ok() && AllStored(handle.Snapshot(), ids)
      modifies this, table
      ensures device == old(device) && host != null && dev == old(dev) && fresh(host)
      ensures loadedAt == |handle.puts| && from == handle.Snapshot()
      ensures Loaded(from, ids, host[..]) && ShowsAll(from, ids, table.views, host, host[..])
      ensures SameElsewhere(old(table.views), table.views, ids)
    {
      var s := handle.Snapshot();
      var h := new byte[ByteSize(s, ids)];
      host, loadedAt, from := h, |handle.puts|, s;
      LoadFromDisk(s, ids, h);
      PointViews(h, s);
    }

    /** CPU to GPU: the host buffer is copied and kept. */
    method CopyToDevice()
      requires host != null && AllStored(from, ids) && Loaded(from, ids, host[..]) && SameLayout(from, handle.Snapshot(), ids)
      modifies this`dev, table
      ensures dev != null && fresh(dev)
      ensures Loaded(from, ids, dev[..]) && ShowsAll(from, ids, table.views, dev, dev[..])
      ensures SameElsewhere(old(table.views), table.views, ids)
    {
      SameOffset(from, handle.Snapshot(), ids, |ids|);
      var d := new byte[ByteSize(handle.Snapshot(), ids)];
      dev := d;
      ReadBulk(host[..], 0, host.Length, d);
      assert d[..] == host[..];
      PointViews(d, from);
    }

    /** SetDevice: the buffers and views of the device reached, the host copy surviving every move
        between CPU and GPU, and no tensor of another node touched. The views may have been taken
        by another node before. */
    method SetDevice(target: Device)
      requires Buffers()
      modifies this, table
      ensures Buffers() && device == if SameType(old(device), target) then old(device) else target
      ensures SameElsewhere(old(table.views), table.views, ids)
      ensures SameType(old(device), target) ==> host == old(host) && dev == old(dev) && table.views == old(table.views)
      ensures !SameType(old(device), target) ==> Shown()
      ensures !SameType(old(device), target) && target.Disk? ==> forall id :: id in ids ==> id in table.views && table.views[id].Placeholder?
      ensures old(device).Disk? && !target.Disk? ==> fresh(host) && loadedAt == |handle.puts|
      ensures !old(device).Disk? && !target.Disk? ==> host == old(host) && loadedAt == old(loadedAt) && from == old(from)
      ensures !old(device).Cuda? && target.Cuda? ==> fresh(dev)
    {
      if device == target || SameType(device, target) {
        return;
      }
      assert handle.puts[..|handle.puts|] == handle.puts;
      if target == Disk {
        DropViews();
        host, dev := null, null;
      } else {
        var fromDisk := host == null && dev == null;
        if !fromDisk {
          LayoutStays(handle.puts, loadedAt, from, handle.Snapshot(), ids);
        }
        if fromDisk && target.Cuda? {
          LoadToDevice();
        } else if fromDisk {
          LoadToHost();
        }
        if !fromDisk && target.Cuda? {
          CopyToDevice();
        }
        if target.Cpu? && device.Cuda? {
          PointViews(host, from);
          dev := null;
        }
      }
      device := target;
    }

    /** The sparse start-up path: a node on disk becomes a CPU node filled from a partition image. */
    method LoadAtStart(file: nat)
      requires Buffers() && device == Disk
      modifies this, table
      ensures Valid() && device == Cpu && fresh(host) && loadedAt == |handle.puts|
      ensures SameElsewhere(old(table.views), table.views, ids)
    {
      var s := handle.Snapshot();
      var h := new byte[ByteSize(s, ids)];
      assert handle.puts[..|handle.puts|] == handle.puts;
      host, loadedAt, from := h, |handle.puts|, s;
      var _ := LoadFromPartition(s, ids, file, h);
      PointViews(h, s);
      device := Cpu;
    }
  }

  /** What happens elsewhere keeps a node whose own tensors and buffers it leaves alone: moves of
      other nodes, and stores, which only add to the handle. */
  twostate lemma StaysValid(n: Node)
    requires old(n.Valid()) && unchanged(n)
    requires n.host != null ==> unchanged(n.host)
    requires n.dev != null ==> unchanged(n.dev)
    requires n.handle.Ok() && AllStored(n.handle.Snapshot(), n.ids) && old(n.handle.puts) <= n.handle.puts
    requires SameViews(old(n.table.views), n.table.views, n.ids)
    ensures n.Valid()
  {
    if !n.device.Disk? {
      assert n.handle.puts[..n.loadedAt] == old(n.handle.puts)[..n.loadedAt];
      assert n.host[..] == old(n.host[..]);
      if n.device.Cpu? {
        ShowsFrame(n.from, n.ids, old(n.table.views), n.table.views, n.host, n.host[..]);
      } else {
        assert n.dev[..] == old(n.dev[..]);
        ShowsFrame(n.from, n.ids, old(n.table.views), n.table.views, n.dev, n.dev[..]);
      }
    }
  }

  // ---------------------------------------------------------------- many nodes

  /** Nodes over one handle and one table, and no tensor in two of them. */
  ghost predicate Separate(nodes: seq<Node>, handle: TensorHandle, table: TensorTable) {
    && (forall a :: 0 <= a < |nodes| ==> nodes[a].table == table && nodes[a].handle == handle)
    && (forall a, b :: 0 <= a < b < |nodes| ==> nodes[a] != nodes[b] && DisjointIds(nodes[a].ids, nodes[b].ids))
  }

  predicate DisjointIds(a: seq<nat>, b: seq<nat>) {
    forall id :: id in a ==> id !in b
  }

  ghost predicate AllValid(nodes: seq<Node>)
    reads nodes, set n | n in nodes :: n.table, set n | n in nodes :: n.handle
    reads set n | n in nodes && n.host != null :: n.host, set n | n in nodes && n.dev != null :: n.dev
  {
    forall a :: 0 <= a < |nodes| ==> nodes[a].Valid()
  }

  /** A tensor is stored, or a node is asked to move. */
  datatype Event = Storing(put: Put) | Moving(node: nat, target: Device)

  predicate MoveOf(events: seq<Event>, a: nat, i: nat) {
    i < |events| && events[i].Moving? && events[i].node == a
  }

  /** What node a was last asked for before event i, or where it was at first. */
  function Previous(events: seq<Event>, a: nat, from: Device, i: nat): Device
    requires i <= |events|
  {
    if i == 0 then from
    else if MoveOf(events, a, i - 1) then events[i - 1].target
    else Previous(events, a, from, i - 1)
  }

  /** Move i of node a asks for another type of device than before, and no later one does. */
  ghost predicate Decides(events: seq<Event>, a: nat, from: Device, i: nat) {
    && MoveOf(events, a, i) && !SameType(Previous(events, a, from, i), events[i].target)
    && forall k: nat :: i < k && MoveOf(events, a, k) ==> SameType(events[k].target, events[i].target)
  }

  ghost predicate NeverLeaves(events: seq<Event>, a: nat, from: Device) {
    forall k: nat :: MoveOf(events, a, k) ==> SameType(events[k].target, from)
  }

  /** Where the events leave node a: at the target of the move that decides, or where it was if they
      never ask for another type of device. */
  ghost predicate EndsOn(events: seq<Event>, a: nat, from: Device, d: Device) {
    || (exists i: nat :: Decides(events, a, from, i) && d == events[i].target)
    || (d == from && NeverLeaves(events, a, from))
  }

  lemma {:induction false} PreviousStays(events: seq<Event>, a: nat, from: Device, n: nat)
    requires n <= |events| && NeverLeaves(events, a, from)
    ensures SameType(Previous(events, a, from, n), from)
  {
    if n > 0 { PreviousStays(events, a, from, n - 1); }
  }

  lemma {:induction false} PreviousDecided(events: seq<Event>, a: nat, from: Device, i: nat, n: nat)
    requires i < n <= |events| && Decides(events, a, from, i)
    ensures SameType(Previous(events, a, from, n), events[i].target)
  {
    if n > i + 1 { PreviousDecided(events, a, from, i, n - 1); }
  }

  lemma {:induction false} PreviousPrefix(events: seq<Event>, e: Event, a: nat, from: Device, i: nat)
    requires i <= |events|
    ensures Previous(events + [e], a, from, i) == Previous(events, a, from, i)
  {
    if i > 0 { PreviousPrefix(events, e, a, from, i - 1); }
  }

  /** The device a node has is of the type it was last asked for. */
  lemma LastTypeIs(events: seq<Event>, a: nat, from: Device, d: Device)
    requires EndsOn(events, a, from, d)
    ensures SameType(Previous(events, a, from, |events|), d)
  {
    if i: nat :| Decides(events, a, from, i) && d == events[i].target {
      PreviousDecided(events, a, from, i, |events|);
    } else {
      PreviousStays(events, a, from, |events|);
    }
  }

  /** One more event. */
  lemma EndsSnoc(events: seq<Event>, e: Event, a: nat, from: Device, was: Device, d: Device)
    requires EndsOn(events, a, from, was)
    requires d == if e.Moving? && e.node == a && !SameType(was, e.target) then e.target else was
    ensures EndsOn(events + [e], a, from, d)
  {
    var all, n := events + [e], |events|;
    LastTypeIs(events, a, from, was);
    if e.Moving? && e.node == a && !SameType(was, e.target) {
      PreviousPrefix(events, e, a, from, n);
      assert Decides(all, a, from, n);
    } else if i: nat :| Decides(events, a, from, i) && was == events[i].target {
      PreviousPrefix(events, e, a, from, i);
      DecidesMore(events, e, a, from, i);
    } else {
      forall k: nat | MoveOf(all, a, k) ensures SameType(all[k].target, from) { assert k < n ==> MoveOf(events, a, k); }
    }
  }

  lemma DecidesMore(events: seq<Event>, e: Event, a: nat, from: Device, i: nat)
    requires Decides(events, a, from, i) && Previous(events + [e], a, from, i) == Previous(events, a, from, i)
    requires e.Moving? && e.node == a ==> SameType(e.target, events[i].target)
    ensures Decides(events + [e], a, from, i)
  {
    var all := events + [e];
    forall k: nat | i < k && MoveOf(all, a, k) ensures SameType(all[k].target, all[i].target) {
      assert k < |events| ==> MoveOf(events, a, k);
    }
  }

  lemma DecidesOnce(events: seq<Event>, a: nat, from: Device, i: nat, j: nat)
    requires Decides(events, a, from, i) && Decides(events, a, from, j)
    ensures i == j
  {
    if i < j { PreviousDecided(events, a, from, i, j); }
    if j < i { PreviousDecided(events, a, from, j, i); }
  }

  lemma DecidesLeaves(events: seq<Event>, a: nat, from: Device, i: nat)
    requires Decides(events, a, from, i)
    ensures !NeverLeaves(events, a, from)
  {
    if NeverLeaves(events, a, from) {
      PreviousStays(events, a, from, i);
    }
  }

  /** There is only one such device. */
  lemma EndsOnce(events: seq<Event>, a: nat, from: Device, d: Device, e: Device)
    requires EndsOn(events, a, from, d) && EndsOn(events, a, from, e)
    ensures d == e
  {
    if i: nat :| Decides(events, a, from, i) {
      DecidesLeaves(events, a, from, i);
      forall j: nat | Decides(events, a, from, j) ensures i == j { DecidesOnce(events, a, from, i, j); }
    }
  }

  /** No run of GPU targets changes the GPU: that takes a stop on the CPU or the disk. */
  lemma StaysOnGpu(events: seq<Event>, a: nat, g: nat, d: Device)
    requires EndsOn(events, a, Cuda(g), d) && forall k: nat :: MoveOf(events, a, k) ==> events[k].target.Cuda?
    ensures d == Cuda(g)
  {
    EndsOnce(events, a, Cuda(g), d, Cuda(g));
  }

  method MoveOne(nodes: seq<Node>, handle: TensorHandle, table: TensorTable, a: nat, target: Device)
    requires a < |nodes| && Separate(nodes, handle, table) && AllValid(nodes)
    modifies nodes, table
    ensures AllValid(nodes)
    ensures forall b :: 0 <= b < |nodes| && b != a ==> nodes[b].device == old(nodes[b].device)
    ensures nodes[a].device == if SameType(old(nodes[a].device), target) then old(nodes[a].device) else target
  {
    nodes[a].SetDevice(target);
    if SameType(old(nodes[a].device), target) {
      forall id | id in nodes[a].ids ensures SameView(old(table.views), table.views, id) { }
    }
    forall b | 0 <= b < |nodes| && b != a ensures nodes[b].Valid() {
      assert nodes[b] != nodes[a] && DisjointIds(nodes[b].ids, nodes[a].ids) by {
        assert a < b || b < a;
      }
      forall id | id in nodes[b].ids ensures SameView(old(table.views), table.views, id) { }
      StaysValid(nodes[b]);
    }
  }

  /** A store changes no buffer and no view. */
  method StoreOne(nodes: seq<Node>, handle: TensorHandle, table: TensorTable, put: Put)
    requires Separate(nodes, handle, table) && AllValid(nodes) && handle.Ok()
    modifies handle
    ensures AllValid(nodes) && handle.Ok() && old(handle.puts) <= handle.puts
  {
    var ok := handle.Save(put.id, put.data);
    forall a | 0 <= a < |nodes| ensures nodes[a].Valid() {
      StaysValid(nodes[a]);
    }
  }

  /** Any run of stores and moves over nodes that share no tensor: every node stays valid and ends
      where its own moves lead. */
  method RunAll(nodes: seq<Node>, handle: TensorHandle, table: TensorTable, events: seq<Event>)
    requires Separate(nodes, handle, table) && AllValid(nodes) && handle.Ok()
    requires forall i :: 0 <= i < |events| && events[i].Moving? ==> events[i].node < |nodes|
    modifies nodes, handle, table
    ensures AllValid(nodes) && handle.Ok() && old(handle.puts) <= handle.puts
    ensures forall a: nat :: a < |nodes| ==> EndsOn(events, a, old(nodes[a].device), nodes[a].device)
  {
    for i := 0 to |events|
      invariant AllValid(nodes) && handle.Ok() && old(handle.puts) <= handle.puts
      invariant forall a: nat :: a < |nodes| ==> EndsOn(events[..i], a, old(nodes[a].device), nodes[a].device)
    {
      ghost var reached := seq(|nodes|, a requires 0 <= a < |nodes| reads nodes => nodes[a].device);
      match events[i] {
        case Storing(put) => StoreOne(nodes, handle, table, put);
        case Moving(a, target) => MoveOne(nodes, handle, table, a, target);
      }
      forall a: nat | a < |nodes| ensures EndsOn(events[..i + 1], a, old(nodes[a].device), nodes[a].device) {
        assert events[..i + 1] == events[..i] + [events[i]];
        EndsSnoc(events[..i], events[i], a, old(nodes[a].device), reached[a], nodes[a].device);
      }
    }
    assert events[..|events|] == events;
  }

  /** The condition is needed: if two nodes on disk share a tensor, loading both and dropping the
      second leaves the first on the CPU with a placeholder for that tensor. */
  method ShareTensor(a: Node, b: Node, id: nat)
    requires a != b && a.table == b.table && a.handle == b.handle && a.Buffers() && b.Buffers()
    requires a.device == Disk && b.device == Disk && id in a.ids && id in b.ids
    modifies a, b, a.table
    ensures a.Buffers() && a.device == Cpu && b.device == Disk
    ensures id in a.table.views && a.table.views[id].Placeholder? && !a.Valid()
  {
    a.SetDevice(Cpu);
    b.SetDevice(Cpu);
    b.SetDevice(Disk);
    ghost var k: nat :| k < |a.ids| && a.ids[k] == id;
    assert !Shows(a.from, a.ids, a.table.views, a.host, a.host[..], k);
  }

  // ---------------------------------------------------------------- from stores to views

  /** Every tensor of a resident node reads the bytes last stored for it before the node was loaded. */
  lemma ViewsReadLastStored(n: Node, k: nat, i: nat)
    requires n.Valid() && !n.device.Disk? && k < |n.ids| && n.loadedAt <= |n.handle.puts|
    requires LastPut(n.handle.puts[..n.loadedAt], n.ids[k], i)
    ensures n.ids[k] in n.table.views && n.table.views[n.ids[k]].Over?
    ensures var v := n.table.views[n.ids[k]];
            && (if n.device.Cuda? then v.buf == n.dev else v.buf == n.host)
            && Reads(v.buf[..], v.at, n.handle.puts[i].data)
  {
    ReadsLastStored(n.handle.puts[..n.loadedAt], n.ids[k], i);
    if n.device.Cuda? {
      assert Shows(n.from, n.ids, n.table.views, n.dev, n.dev[..], k);
    } else {
      assert Shows(n.from, n.ids, n.table.views, n.host, n.host[..], k);
    }
  }

  /** So a tensor shows what is stored now exactly if its bytes were not changed since the load: a
      store while the node is resident does not reach its buffers. */
  lemma ViewsFreshIff(n: Node, k: nat, i: nat, j: nat)
    requires n.Valid() && !n.device.Disk? && k < |n.ids| && n.loadedAt <= |n.handle.puts|
    requires LastPut(n.handle.puts[..n.loadedAt], n.ids[k], i) && LastPut(n.handle.puts, n.ids[k], j)
    ensures n.ids[k] in n.handle.Tensors() && n.ids[k] in n.table.views && n.table.views[n.ids[k]].Over?
    ensures var v, now := n.table.views[n.ids[k]], n.handle.Tensors()[n.ids[k]];
            Reads(v.buf[..], v.at, now) <==> n.handle.puts[i].data == n.handle.puts[j].data
  {
    ViewsReadLastStored(n, k, i);
    ReadsLastStored(n.handle.puts, n.ids[k], j);
    ReadsLastStored(n.handle.puts[..n.loadedAt], n.ids[k], i);
    LayoutStays(n.handle.puts, n.loadedAt, n.from, n.handle.Snapshot(), n.ids);
  }
}
