/** Bytes in flight: chunk contents, partial transfers, and the completed whole. */
module AioData {
  import opened Bytes
  import opened Chunks
  import opened AioModel
  import opened AioInvariant
  import opened AioFlow

  // ---------------------------------------------------------------- frames

  lemma CoveredSame(c: Config, s: State, h: History, t: State, k: History)
    requires c.block > 0 && Busy(s) && Busy(t) && Current(s) == Current(t) && |h.place| == |k.place|
    requires forall i :: 0 <= i < |h.place| ==> (Applied(s, h.place[i]) <==> Applied(t, k.place[i]))
    ensures forall q :: Covered(c, t, k, q) <==> Covered(c, s, h, q)
  {
    forall q ensures Covered(c, t, k, q) <==> Covered(c, s, h, q) {
      if Covered(c, t, k, q) {
        var i: nat :| AppliedChunk(c, t, k, i, q);
        assert AppliedChunk(c, s, h, i, q);
      }
      if Covered(c, s, h, q) {
        var i: nat :| AppliedChunk(c, s, h, i, q);
        assert AppliedChunk(c, t, k, i, q);
      }
    }
  }

  lemma ProgressFrame(c: Config, s: State, h: History, t: State, k: History)
    requires c.block > 0 && Busy(s) && Busy(t) && Current(s) == Current(t) && |h.place| == |k.place|
    requires forall i :: 0 <= i < |h.place| ==> (Applied(s, h.place[i]) <==> Applied(t, k.place[i]))
    requires t.files == s.files && t.buffers == s.buffers && k.base == h.base && ProgressOk(c, s, h)
    ensures ProgressOk(c, t, k)
  {
    CoveredSame(c, s, h, t, k);
  }

  lemma ContentsFrame(c: Config, s: State, h: History, t: State, k: History)
    requires Sized(c, s) && Sized(c, t) && ContentsOk(c, s, h) && t.chunks == s.chunks && k.base == h.base
    requires Busy(s) ==> Busy(t) && Current(s) == Current(t)
    requires forall w: nat :: RunningAt(t, w, Filled) ==> RunningAt(s, w, Filled) && t.workers[w].run == s.workers[w].run
    ensures ContentsOk(c, t, k)
  {
    forall w: nat | RunningAt(t, w, Filled) ensures Busy(t) && ChunkContent(c, t, k, w) {
      assert RunningAt(s, w, Filled);
      assert ChunkContent(c, s, h, w);
    }
  }

  // ---------------------------------------------------------------- filling a chunk

  lemma FillWrites(c: Config, s: State, h: History, w: nat, q: nat)
    requires FlowOk(c, s, h) && CanFill(c, s, w) && Busy(s) && ProgressOk(c, s, h)
    requires s.workers[w].run.job.req == Current(s) && Current(s).write
    requires q < Piece(c, s.workers[w].run.job).byteCount
    ensures
      var p := Piece(c, s.workers[w].run.job);
      p.shift + p.byteCount <= Align(Current(s).size) && FilledChunk(c, s, w)[q] == Padded(h, Current(s))[p.shift + q]
  {
    var job := s.workers[w].run.job;
    ChunkBounds(job.req.size, c.block, job.i);
    ChunkPayload(job.req.size, c.block, job.i, Piece(c, job).shift + q);
  }

  lemma FillReads(c: Config, s: State, h: History, w: nat, q: nat)
    requires FlowOk(c, s, h) && CanFill(c, s, w) && Busy(s) && ProgressOk(c, s, h)
    requires s.workers[w].run.job.req == Current(s) && !Current(s).write
    requires q < Piece(c, s.workers[w].run.job).copyCount
    ensures
      var r, p := Current(s), Piece(c, s.workers[w].run.job);
      && r.offset + p.shift + p.copyCount <= |h.base.files[r.file]|
      && FilledChunk(c, s, w)[q] == h.base.files[r.file][r.offset + p.shift + q]
  {
    var job := s.workers[w].run.job;
    ChunkBounds(job.req.size, c.block, job.i);
  }

  lemma FillContent(c: Config, s: State, h: History, w: nat)
    requires FlowOk(c, s, h) && CanFill(c, s, w) && ProgressOk(c, s, h)
    ensures Busy(s) && ChunkContent(c, DoFill(c, s, w), h, w)
  {
    assert WorkerOk(s, h, w);
    var job, r, t := s.workers[w].run.job, Current(s), DoFill(c, s, w);
    var p := Piece(c, job);
    ChunkBounds(job.req.size, c.block, job.i);
    var chunk := FilledChunk(c, s, w);
    assert t.chunks[s.workers[w].run.chunk] == chunk;
    if r.write {
      forall q | 0 <= q < p.byteCount ensures chunk[q] == Padded(h, r)[p.shift + q] {
        FillWrites(c, s, h, w, q);
      }
    } else {
      if p.copyCount > 0 { FillReads(c, s, h, w, 0); }
      forall q | 0 <= q < p.copyCount ensures chunk[q] == h.base.files[r.file][r.offset + p.shift + q] {
        FillReads(c, s, h, w, q);
      }
    }
  }

  /** Filling one chunk leaves the content of the other filled ones. */
  lemma OtherContent(c: Config, s: State, h: History, w: nat, v: nat)
    requires Sized(c, s) && PoolOk(c, s) && CanFill(c, s, w) && Busy(s) && v != w
    requires RunningAt(s, v, Filled) && ChunkContent(c, s, h, v)
    ensures RunningAt(DoFill(c, s, w), v, Filled) && ChunkContent(c, DoFill(c, s, w), h, v)
  {
    assert HoldsChunk(s, w, s.workers[w].run.chunk) && HoldsChunk(s, v, s.workers[v].run.chunk);
    assert DoFill(c, s, w).chunks[s.workers[v].run.chunk] == s.chunks[s.workers[v].run.chunk];
  }

  lemma DataFill(c: Config, s: State, h: History, w: nat)
    requires FlowOk(c, s, h) && PoolOk(c, s) && CanFill(c, s, w) && MemoryOk(c, s, h)
    ensures Sized(c, DoFill(c, s, w)) && MemoryOk(c, DoFill(c, s, w), h)
  {
    var t := DoFill(c, s, w);
    FillContent(c, s, h, w);
    ProgressFrame(c, s, h, t, h);
    forall v: nat | RunningAt(t, v, Filled) ensures Busy(t) && ChunkContent(c, t, h, v) {
      if v != w {
        assert RunningAt(s, v, Filled);
        OtherContent(c, s, h, w, v);
      }
    }
  }

  // ---------------------------------------------------------------- moving a chunk on

  /** Moving one chunk adds exactly its range to what is covered. */
  lemma MoveCovers(c: Config, s: State, h: History, w: nat)
    requires FlowOk(c, s, h) && CanMove(c, s, w)
    ensures Busy(s) && s.workers[w].run.job.req == Current(s)
    ensures forall q :: Covered(c, DoMove(c, s, w), h, q) <==>
              Covered(c, s, h, q) || InChunk(Current(s).size, c.block, s.workers[w].run.job.i, q)
  {
    assert WorkerOk(s, h, w);
    var t, m := DoMove(c, s, w), s.workers[w].run.job.i;
    forall i | 0 <= i < |h.place| && i != m ensures Applied(t, h.place[i]) <==> Applied(s, h.place[i]) {
      assert JobOk(s, h, i);
    }
    forall q ensures Covered(c, t, h, q) <==> Covered(c, s, h, q) || InChunk(Current(s).size, c.block, m, q) {
      if Covered(c, t, h, q) {
        var i: nat :| AppliedChunk(c, t, h, i, q);
        if i != m { assert AppliedChunk(c, s, h, i, q); }
      }
      if Covered(c, s, h, q) {
        var i: nat :| AppliedChunk(c, s, h, i, q);
        assert i != m;
        assert AppliedChunk(c, t, h, i, q);
      }
      if InChunk(Current(s).size, c.block, m, q) { assert AppliedChunk(c, t, h, m, q); }
    }
  }

  /** One byte of the file after one more chunk of a write has reached it. */
  lemma MoveWriteAt(c: Config, s: State, h: History, w: nat, x: nat)
    requires FlowOk(c, s, h) && CanMove(c, s, w) && Busy(s) && Current(s).write && WriteProgress(c, s, h, Current(s))
    requires RunningAt(s, w, Filled) && ChunkContent(c, s, h, w)
    requires x < |DoMove(c, s, w).files[Current(s).file]|
    ensures
      var r, was, next := Current(s), h.base.files[Current(s).file], DoMove(c, s, w).files[Current(s).file];
      if Covered(c, s, h, x - r.offset) || InChunk(r.size, c.block, s.workers[w].run.job.i, x - r.offset)
      then 0 <= x - r.offset < Align(r.size) && next[x] == Padded(h, r)[x - r.offset]
      else next[x] == if x < |was| then was[x] else 0
  {
    var r, job := Current(s), s.workers[w].run.job;
    ChunkBounds(r.size, c.block, job.i);
    var p := Piece(c, job);
    var q := x - r.offset - p.shift;
    if 0 <= q < p.byteCount {
      assert s.chunks[s.workers[w].run.chunk][..p.byteCount][q] == Padded(h, r)[p.shift + q];
    }
  }

  lemma MoveWriteEnd(c: Config, s: State, h: History, w: nat)
    requires FlowOk(c, s, h) && CanMove(c, s, w) && Busy(s) && Current(s).write && WriteProgress(c, s, h, Current(s))
    requires s.workers[w].run.job.req == Current(s)
    ensures
      var r, was, now, next := Current(s), h.base.files[Current(s).file], s.files[Current(s).file], DoMove(c, s, w).files[Current(s).file];
      && r.size > 0 && |now| <= |next| <= Max(|was|, r.offset + Align(r.size))
      && forall q :: InChunk(r.size, c.block, s.workers[w].run.job.i, q) ==> 0 <= q < Align(r.size) && r.offset + q < |next|
  {
    ChunkBounds(Current(s).size, c.block, s.workers[w].run.job.i);
  }

  ghost predicate ByteNow(c: Config, s: State, h: History, r: Request, m: nat, next: seq<byte>, x: nat)
    requires c.block > 0 && Busy(s) && r == Current(s) && WriteProgress(c, s, h, r) && x < |next|
  {
    if Covered(c, s, h, x - r.offset) || InChunk(r.size, c.block, m, x - r.offset)
    then 0 <= x - r.offset < Align(r.size) && next[x] == Padded(h, r)[x - r.offset]
    else next[x] == if x < |h.base.files[r.file]| then h.base.files[r.file][x] else 0
  }

  lemma AssembleWrite(c: Config, s: State, h: History, t: State, r: Request, m: nat)
    requires c.block > 0 && Busy(s) && Busy(t) && r == Current(s) == Current(t) && r.size > 0
    requires WriteProgress(c, s, h, r) && t.buffers == s.buffers && |t.files| == |s.files|
    requires forall f :: 0 <= f < |s.files| && f != r.file ==> t.files[f] == s.files[f]
    requires |s.files[r.file]| <= |t.files[r.file]| <= Max(|h.base.files[r.file]|, r.offset + Align(r.size))
    requires forall q :: Covered(c, t, h, q) <==> Covered(c, s, h, q) || InChunk(r.size, c.block, m, q)
    requires forall q :: InChunk(r.size, c.block, m, q) ==> 0 <= q < Align(r.size) && r.offset + q < |t.files[r.file]|
    requires forall x :: 0 <= x < |t.files[r.file]| ==> ByteNow(c, s, h, r, m, t.files[r.file], x)
    ensures WriteProgress(c, t, h, r)
  {
    forall x | 0 <= x < |t.files[r.file]|
      ensures if Covered(c, t, h, x - r.offset) then 0 <= x - r.offset < Align(r.size) && t.files[r.file][x] == Padded(h, r)[x - r.offset]
              else t.files[r.file][x] == if x < |h.base.files[r.file]| then h.base.files[r.file][x] else 0
    {
      assert ByteNow(c, s, h, r, m, t.files[r.file], x);
    }
  }

  lemma MoveWrite(c: Config, s: State, h: History, w: nat)
    requires FlowOk(c, s, h) && CanMove(c, s, w) && WriteProgressNow(c, s, h)
    requires RunningAt(s, w, Filled) && ChunkContent(c, s, h, w)
    ensures WriteProgress(c, DoMove(c, s, w), h, Current(s))
  {
    var t, r, m := DoMove(c, s, w), Current(s), s.workers[w].run.job.i;
    MoveCovers(c, s, h, w);
    MoveWriteEnd(c, s, h, w);
    forall x | 0 <= x < |t.files[r.file]| ensures ByteNow(c, s, h, r, m, t.files[r.file], x) {
      MoveWriteAt(c, s, h, w, x);
    }
    AssembleWrite(c, s, h, t, r, m);
  }

  ghost predicate WriteProgressNow(c: Config, s: State, h: History)
    requires c.block > 0
  {
    Busy(s) && Current(s).write && WriteProgress(c, s, h, Current(s))
  }

  lemma MoveRead(c: Config, s: State, h: History, w: nat)
    requires FlowOk(c, s, h) && CanMove(c, s, w) && MemoryOk(c, s, h)
    requires Busy(s) && !Current(s).write && RunningAt(s, w, Filled) && ChunkContent(c, s, h, w)
    ensures ReadProgress(c, DoMove(c, s, w), h, Current(s))
  {
    var t, r, job := DoMove(c, s, w), Current(s), s.workers[w].run.job;
    MoveCovers(c, s, h, w);
    var p := Piece(c, job);
    ChunkBounds(r.size, c.block, job.i);
    var now, was, next := s.buffers[r.buf], h.base.buffers[r.buf], t.buffers[r.buf];
    forall x | 0 <= x < |next|
      ensures next[x] == if x < r.size && Covered(c, t, h, x) then s.files[r.file][r.offset + x] else was[x]
    {
      if InChunk(r.size, c.block, job.i, x) {
        ChunkPayload(r.size, c.block, job.i, x);
      }
    }
  }

  lemma DataMove(c: Config, s: State, h: History, w: nat)
    requires FlowOk(c, s, h) && CanMove(c, s, w) && MemoryOk(c, s, h)
    ensures Sized(c, DoMove(c, s, w)) && MemoryOk(c, DoMove(c, s, w), h)
  {
    var t := DoMove(c, s, w);
    assert Busy(s) && ChunkContent(c, s, h, w);
    if Current(s).write { MoveWrite(c, s, h, w); } else { MoveRead(c, s, h, w); }
    ContentsFrame(c, s, h, t, h);
  }

  // ---------------------------------------------------------------- completion

  lemma AllCovered(c: Config, s: State, h: History, q: int)
    requires FlowOk(c, s, h) && CanComplete(c, s)
    ensures Covered(c, s, h, q) <==> 0 <= q < Align(Current(s).size)
  {
    AllFinished(c, s, h);
    if 0 <= q < Align(Current(s).size) {
      var i := ChunksCover(Current(s).size, c.block, q);
      assert AppliedChunk(c, s, h, i, q);
    }
    if Covered(c, s, h, q) {
      var i: nat :| AppliedChunk(c, s, h, i, q);
      ChunkBounds(Current(s).size, c.block, i);
    }
  }

  /** When the last callback is done, memory is what one sequential transfer gives. */
  lemma CompleteServes(c: Config, s: State, h: History)
    requires FlowOk(c, s, h) && CanComplete(c, s) && ProgressOk(c, s, h)
    ensures Fits(h.base.files, h.base.buffers, Current(s))
    ensures Memory(s.files, s.buffers) == Serve(h.base, Current(s))
  {
    var r := Current(s);
    if r.write {
      var now, was, want := s.files[r.file], h.base.files[r.file], PWrite(h.base.files[r.file], r.offset, Padded(h, r));
      if r.size > 0 {
        AllCovered(c, s, h, Align(r.size) - 1);
      }
      assert |now| == |want|;
      forall x | 0 <= x < |now| ensures now[x] == want[x] {
        AllCovered(c, s, h, x - r.offset);
      }
      assert now == want;
      assert s.files == h.base.files[r.file := want];
    } else {
      var now, was := s.buffers[r.buf], h.base.buffers[r.buf];
      forall x | 0 <= x < |now| ensures now[x] == if x < r.size then s.files[r.file][r.offset + x] else was[x] {
        AllCovered(c, s, h, x);
      }
      if r.size == 0 {
        assert now == was;
        assert s.buffers == h.base.buffers;
      } else {
        var want := Overwrite(was, h.base.files[r.file][r.offset..r.offset + r.size]);
        assert now == want;
        assert s.buffers == h.base.buffers[r.buf := want];
      }
    }
  }

  lemma DataComplete(c: Config, s: State, h: History, k: History)
    requires FlowOk(c, s, h) && CanComplete(c, s) && MemoryOk(c, s, h)
    requires k.base == Memory(s.files, s.buffers) && k.start == h.start
    ensures MemoryOk(c, DoComplete(s), k)
  {
    CompleteServes(c, s, h);
    AllFinished(c, s, h);
    ServeSnoc(h.start, s.done, Current(s));
  }

  lemma DataTake(c: Config, s: State, h: History, t: State, k: History, r: Request)
    requires FlowOk(c, s, h) && MemoryOk(c, s, h) && !Busy(s) && Fits(s.files, s.buffers, r)
    requires Sized(c, t) && t.sched == Dispatching(r, 0) && t.workers == s.workers && t.done == s.done
    requires t.files == s.files && t.buffers == s.buffers && t.chunks == s.chunks
    requires k.place == seq(Count(c, r), _ => Waiting) && k.base == h.base && k.start == h.start
    ensures MemoryOk(c, t, k)
  {
    forall q ensures !Covered(c, t, k, q) {
      assert forall i: nat :: !AppliedChunk(c, t, k, i, q);
    }
    forall w: nat | w < |t.workers| ensures !RunningAt(t, w, Filled) {
      assert WorkerOk(s, h, w);
    }
  }
}
