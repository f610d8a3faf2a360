/** The tensor store on top of the I/O scheduler: what a client that stores and then reads gets back. */
module StoreThroughScheduler {
  import opened AioModel
  import opened TensorStore
  import opened AioInvariant
  import AioTheorems

  /** `r` is the transfer the handle issues for extent `x`. */
  predicate Targets(r: Request, x: Extent) {
    r.file == x.file && r.offset == x.offset && r.size == x.size
  }

  /** The requests `rs`, served from memory m, are the writes of the stores `puts` in order, each from
      a buffer that holds its data then, mixed with any reads; they take the store from s to t. */
  ghost predicate History(m: Memory, s: Store, rs: seq<Request>, puts: seq<Put>, t: Store)
    decreases |rs|
  {
    if rs == [] then puts == [] && t == s
    else
      && Fits(m.files, m.buffers, rs[0])
      && if rs[0].write then
           && puts != [] && IsStoreOf(m, s, rs[0], puts[0])
           && History(Serve(m, rs[0]), StoreTensor(s, puts[0].id, puts[0].data).store, rs[1..], puts[1..], t)
         else History(Serve(m, rs[0]), s, rs[1..], puts, t)
  }

  /** r is the write that storing `put` issues. */
  predicate IsStoreOf(m: Memory, s: Store, r: Request, put: Put)
    requires Fits(m.files, m.buffers, r)
  {
    && StoreTensor(s, put.id, put.data).Stored? && r.write
    && Targets(r, StoreTensor(s, put.id, put.data).store.index[put.id])
    && m.buffers[r.buf][..r.size] == put.data
  }

  /** The disk holds the store's partition files. */
  ghost predicate OnDisk(m: Memory, s: Store) {
    forall f: nat :: f < |m.files| ==> m.files[f] == FileOf(s.files, f)
  }

  /** One served write is the write of one StoreTensor. */
  lemma ServeOne(m: Memory, s: Store, put: Put, r: Request)
    requires OnDisk(m, s) && Fits(m.files, m.buffers, r) && IsStoreOf(m, s, r, put)
    ensures OnDisk(Serve(m, r), StoreTensor(s, put.id, put.data).store)
  {
    var t := StoreTensor(s, put.id, put.data).store;
    assert t.files == WriteExtent(s.files, t.index[put.id], put.data);
  }

  /** Serving a history leaves exactly the partition files of its stores on disk. */
  lemma {:induction false} ServeStores(m: Memory, s: Store, rs: seq<Request>, puts: seq<Put>, t: Store)
    requires OnDisk(m, s) && History(m, s, rs, puts, t)
    ensures AllFit(m, rs) && StoreAll(s, puts) == Stored(t) && OnDisk(ServeAll(m, rs), t)
    decreases |rs|
  {
    if rs != [] {
      if rs[0].write {
        ServeOne(m, s, puts[0], rs[0]);
        ServeStores(Serve(m, rs[0]), StoreTensor(s, puts[0].id, puts[0].data).store, rs[1..], puts[1..], t);
      } else {
        ServeStores(Serve(m, rs[0]), s, rs[1..], puts, t);
      }
    }
  }

  /** On empty disks, whatever the interleaving of scheduler, workers and callbacks and whatever reads
      were served between the stores: when a tensor read completes, its buffer holds the bytes last
      stored for that tensor before it. */
  lemma {:induction false} StoredBytesComeBack(c: Config, m: Memory, s: State, puts: seq<Put>, t: Store, id: nat, i: nat)
    requires AioTheorems.Reachable(c, m, s) && CanComplete(c, s) && !Current(s).write
    requires OnDisk(m, EMPTY) && History(m, EMPTY, s.done, puts, t)
    requires id in t.index && Targets(Current(s), t.index[id]) && LastPut(puts, id, i)
    ensures var r := Current(s);
            r.buf < |s.buffers| && r.size <= |s.buffers[r.buf]| && s.buffers[r.buf][..r.size] == puts[i].data
  {
    var r, rs := Current(s), s.done;
    AioTheorems.CompletionIsWhole(c, m, s);
    ServePrefix(m, rs, r);
    ServeStores(m, EMPTY, rs, puts, t);
    ReadsLastStored(puts, id, i);
    var w := ServeAll(m, rs);
    assert w.files[r.file] == FileOf(t.files, r.file);
    assert Memory(s.files, s.buffers) == Serve(w, r);
  }

  lemma {:induction false} ServePrefix(m: Memory, rs: seq<Request>, r: Request)
    requires AllFit(m, rs + [r])
    ensures AllFit(m, rs) && Fits(ServeAll(m, rs).files, ServeAll(m, rs).buffers, r)
    ensures ServeAll(m, rs + [r]) == Serve(ServeAll(m, rs), r)
    decreases |rs|
  {
    if rs == [] {
      assert rs + [r] == [r] && [r][1..] == [];
    } else {
      assert (rs + [r])[1..] == rs[1..] + [r] && (rs + [r])[0] == rs[0];
      ServePrefix(Serve(m, rs[0]), rs[1..], r);
    }
  }
}
