/** What each call of the I/O path gives its caller, in every state the machine reaches. */
module AioEffects {
  import opened Bytes
  import opened Chunks
  import opened AioModel
  import opened AioInvariant
  import opened AioTheorems

  /** A state some interleaving reaches from memory `m`. */
  ghost predicate Alive(c: Config, m: Memory, s: State) {
    Sized(c, s) && Reachable(c, m, s)
  }

  lemma StartsAlive(c: Config, s: State)
    requires Initial(c, s)
    ensures Alive(c, Memory(s.files, s.buffers), s)
  {
    assert RunsTo(c, s, [], s);
  }

  lemma {:induction false} RunSnoc(c: Config, s: State, steps: seq<Step>, step: Step)
    requires Sized(c, s) && Run(c, s, steps) && Enabled(c, After(c, s, steps), step)
    ensures Run(c, s, steps + [step]) && After(c, s, steps + [step]) == Apply(c, After(c, s, steps), step)
    decreases |steps|
  {
    if steps == [] {
      assert steps + [step] == [step] && [step][1..] == [];
    } else {
      assert (steps + [step])[1..] == steps[1..] + [step] && (steps + [step])[0] == steps[0];
      RunSnoc(c, Apply(c, s, steps[0]), steps[1..], step);
    }
  }

  lemma AliveStep(c: Config, m: Memory, s: State, step: Step)
    requires Alive(c, m, s) && Enabled(c, s, step)
    ensures Alive(c, m, Apply(c, s, step))
  {
    var first, steps :| Initial(c, first) && m == Memory(first.files, first.buffers) && RunsTo(c, first, steps, s);
    RunSnoc(c, first, steps, step);
    assert RunsTo(c, first, steps + [step], Apply(c, s, step));
  }

  // ---------------------------------------------------------------- clients and the scheduler

  /** In each class, what was accepted is what was taken followed by the queue. */
  ghost predicate InOrder(s: State) {
    && Arrivals(s.log, true) == Departures(s.log, true) + s.high
    && Arrivals(s.log, false) == Departures(s.log, false) + s.low
  }

  /** r is the oldest accepted request of its class that was not taken. */
  ghost predicate Oldest(s: State, r: Request, high: bool) {
    var taken := |Departures(s.log, high)|;
    taken < |Arrivals(s.log, high)| && Arrivals(s.log, high)[taken] == r
  }

  lemma AcceptEffect(c: Config, m: Memory, s: State, r: Request, high: bool)
    requires Alive(c, m, s) && CanAccept(s, r)
    ensures Alive(c, m, DoAccept(s, r, high)) && InOrder(DoAccept(s, r, high))
  {
    AliveStep(c, m, s, Accept(r, high));
    ServedFirstComeFirstServed(c, m, DoAccept(s, r, high));
  }

  lemma TakeHighEffect(c: Config, m: Memory, s: State)
    requires Alive(c, m, s) && CanTakeHigh(s)
    ensures Alive(c, m, DoTakeHigh(s)) && InOrder(DoTakeHigh(s)) && Oldest(s, s.high[0], true)
  {
    AliveStep(c, m, s, TakeHigh);
    ServedFirstComeFirstServed(c, m, s);
    ServedFirstComeFirstServed(c, m, DoTakeHigh(s));
  }

  /** The low queue is looked at only when every accepted high-priority request was taken. */
  lemma SkipHighEffect(c: Config, m: Memory, s: State)
    requires Alive(c, m, s) && CanSkipHigh(s)
    ensures Alive(c, m, DoSkipHigh(s)) && Arrivals(s.log, true) == Departures(s.log, true)
  {
    AliveStep(c, m, s, SkipHigh);
    ServedFirstComeFirstServed(c, m, s);
  }

  /** No high-priority request that still waits has seen more than one low-priority request taken. */
  ghost predicate InversionsBounded(log: seq<Event>) {
    forall a :: 0 <= a < |log| && log[a].Accepted? && log[a].high && Taken(log[a].req, true) !in log[a..] ==>
      LowTaken(log[a..]) <= 1
  }

  lemma TakeLowEffect(c: Config, m: Memory, s: State)
    requires Alive(c, m, s) && CanTakeLow(s)
    ensures Alive(c, m, DoTakeLow(s)) && InOrder(DoTakeLow(s)) && Oldest(s, s.low[0], false)
    ensures InversionsBounded(DoTakeLow(s).log)
  {
    AliveStep(c, m, s, TakeLow);
    var t := DoTakeLow(s);
    ServedFirstComeFirstServed(c, m, s);
    ServedFirstComeFirstServed(c, m, t);
    forall a | 0 <= a < |t.log| && t.log[a].Accepted? && t.log[a].high && Taken(t.log[a].req, true) !in t.log[a..]
      ensures LowTaken(t.log[a..]) <= 1
    {
      assert t.log[a..|t.log|] == t.log[a..];
      PriorityInversionBounded(c, m, t, a, |t.log|);
    }
  }

  /** A worker's counter is what it has queued plus what it runs, all of the current request. */
  ghost predicate Counted(s: State, w: nat)
    requires w < |s.workers|
  {
    && s.workers[w].pending == |s.workers[w].queue| + (if s.workers[w].run.Off? then 0 else 1)
    && (forall job :: job in s.workers[w].queue ==> Busy(s) && job.req == Current(s))
    && (s.workers[w].run.Running? ==> Busy(s) && s.workers[w].run.job.req == Current(s))
  }

  lemma DispatchEffect(c: Config, m: Memory, s: State, w: nat)
    requires Alive(c, m, s) && CanDispatch(c, s, w)
    ensures Alive(c, m, DoDispatch(c, s, w)) && Counted(DoDispatch(c, s, w), w)
  {
    AliveStep(c, m, s, Dispatch(w));
    PendingIsExact(c, m, DoDispatch(c, s, w), w);
  }

  /** A callback is queued, runs, or has run once. */
  ghost predicate HandedOut(s: State, job: Job) {
    || s.ran[job] == 1
    || exists w: nat :: w < |s.workers| && (job in s.workers[w].queue || (s.workers[w].run.Running? && s.workers[w].run.job == job))
  }

  lemma StartDrainEffect(c: Config, m: Memory, s: State)
    requires Alive(c, m, s) && CanStartDrain(c, s)
    ensures Alive(c, m, DoStartDrain(s))
    ensures forall i: nat :: i < Count(c, s.sched.req) ==> HandedOut(s, Job(s.sched.req, i))
  {
    AliveStep(c, m, s, StartDrain);
    var h := ReachableInv(c, m, s);
    forall i: nat | i < Count(c, s.sched.req) ensures HandedOut(s, Job(s.sched.req, i)) {
      assert JobOk(s, h, i);
      assert s.ran[Job(s.sched.req, i)] == Runs(c, s, h, Job(s.sched.req, i));
    }
  }

  /** Clearing the worker's list drops nothing. */
  lemma DrainEffect(c: Config, m: Memory, s: State)
    requires Alive(c, m, s) && CanDrain(c, s)
    ensures Alive(c, m, DoDrain(c, s)) && DoDrain(c, s).workers == s.workers
  {
    AliveStep(c, m, s, Drain);
    PendingIsExact(c, m, s, s.sched.w);
  }

  /** Memory is what serving all completed requests in order gives, and each callback of r ran once. */
  ghost predicate Completed(c: Config, m: Memory, s: State, r: Request) {
    && c.block > 0 && r in s.done && AllFit(m, s.done) && Memory(s.files, s.buffers) == ServeAll(m, s.done)
    && forall i: nat :: i < Count(c, r) ==> s.ran[Job(r, i)] == 1
  }

  lemma CompleteEffect(c: Config, m: Memory, s: State)
    requires Alive(c, m, s) && CanComplete(c, s)
    ensures Alive(c, m, DoComplete(s)) && Completed(c, m, DoComplete(s), s.sched.req)
  {
    AliveStep(c, m, s, Complete);
    var t, r := DoComplete(s), s.sched.req;
    ServedInOrder(c, m, t);
    assert t.done[|s.done|] == r;
    forall i: nat | i < Count(c, r) ensures t.ran[Job(r, i)] == 1 { CallbacksRunOnce(c, m, t, r, i); }
  }

  // ---------------------------------------------------------------- a worker

  lemma PopEffect(c: Config, m: Memory, s: State, w: nat)
    requires Alive(c, m, s) && CanPop(s, w)
    ensures Alive(c, m, DoPop(s, w)) && Counted(DoPop(s, w), w)
  {
    AliveStep(c, m, s, Pop(w));
    PendingIsExact(c, m, DoPop(s, w), w);
  }

  /** Chunk k has one holder, w, and is not free. */
  ghost predicate OnlyHolder(s: State, w: nat, k: nat) {
    HoldsChunk(s, w, k) && k !in s.free && forall v: nat :: HoldsChunk(s, v, k) ==> v == w
  }

  lemma AcquireEffect(c: Config, m: Memory, s: State, w: nat)
    requires Alive(c, m, s) && CanAcquire(s, w)
    ensures Alive(c, m, DoAcquire(s, w)) && OnlyHolder(DoAcquire(s, w), w, s.free[0])
    ensures forall v: nat :: !HoldsChunk(s, v, s.free[0])
  {
    AliveStep(c, m, s, Acquire(w));
    var t, k := DoAcquire(s, w), s.free[0];
    var h := ReachableInv(c, m, t);
    var g := ReachableInv(c, m, s);
    assert HoldsChunk(t, w, k);
  }

  /** The chunk of worker w has the payload of its piece, and zeros behind it in a write. */
  ghost predicate ChunkIs(c: Config, s: State, w: nat) {
    && c.block > 0 && RunningAt(s, w, Filled) && s.workers[w].run.chunk < |s.chunks|
    && var job, chunk := s.workers[w].run.job, s.chunks[s.workers[w].run.chunk];
       && job.i < Count(c, job.req) && Fits(s.files, s.buffers, job.req)
       && var p, r := Piece(c, job), job.req;
          && p.byteCount <= |chunk|
          && if r.write then
               forall q: nat :: q < p.byteCount ==>
                 chunk[q] == if p.shift + q < r.size then s.buffers[r.buf][p.shift + q] else 0
             else
               forall q: nat :: q < p.byteCount && p.shift + q < r.size ==>
                 r.offset + p.shift + q < |s.files[r.file]| && chunk[q] == s.files[r.file][r.offset + p.shift + q]
  }

  lemma FillEffect(c: Config, m: Memory, s: State, w: nat)
    requires Alive(c, m, s) && CanFill(c, s, w)
    ensures Alive(c, m, DoFill(c, s, w)) && ChunkIs(c, DoFill(c, s, w), w)
  {
    AliveStep(c, m, s, Fill(w));
    FilledIs(c, s, w);
  }

  lemma FilledIs(c: Config, s: State, w: nat)
    requires Sized(c, s) && CanFill(c, s, w)
    ensures ChunkIs(c, DoFill(c, s, w), w)
  {
    var job := s.workers[w].run.job;
    ChunkBounds(job.req.size, c.block, job.i);
  }

  /** The piece of a callback is in place: padded payload in the file, or file bytes in the buffer. */
  ghost predicate InPlace(c: Config, s: State, job: Job)
    requires c.block > 0 && job.i < Count(c, job.req) && Fits(s.files, s.buffers, job.req)
  {
    var r, p := job.req, Piece(c, job);
    if r.write then
      && p.shift + p.byteCount <= Align(r.size) && r.offset + p.shift + p.byteCount <= |s.files[r.file]|
      && s.files[r.file][r.offset + p.shift..r.offset + p.shift + p.byteCount]
         == Pad(s.buffers[r.buf][..r.size])[p.shift..p.shift + p.byteCount]
    else
      p.copyCount > 0 ==>
        && p.shift + p.copyCount <= r.size
        && s.buffers[r.buf][p.shift..p.shift + p.copyCount]
           == s.files[r.file][r.offset + p.shift..r.offset + p.shift + p.copyCount]
  }

  lemma MoveEffect(c: Config, m: Memory, s: State, w: nat)
    requires Alive(c, m, s) && CanMove(c, s, w)
    ensures Alive(c, m, DoMove(c, s, w))
    ensures Fits(DoMove(c, s, w).files, DoMove(c, s, w).buffers, s.workers[w].run.job.req)
    ensures InPlace(c, DoMove(c, s, w), s.workers[w].run.job)
  {
    AliveStep(c, m, s, Move(w));
    var h := ReachableInv(c, m, s);
    assert ContentsOk(c, s, h) && ChunkContent(c, s, h, w);
    var t, job := DoMove(c, s, w), s.workers[w].run.job;
    ChunkBounds(job.req.size, c.block, job.i);
    if job.req.write { MovedWrite(c, s, h, w); } else { MovedRead(c, s, h, w); }
  }

  lemma WriteChunkIs(c: Config, s: State, h: History, w: nat)
    requires Sized(c, s) && CanMove(c, s, w) && Busy(s) && ChunkContent(c, s, h, w) && s.workers[w].run.job.req.write
    requires s.buffers == h.base.buffers
    ensures
      var job, chunk := s.workers[w].run.job, s.chunks[s.workers[w].run.chunk];
      var p, r := Piece(c, job), job.req;
      && p.byteCount <= |chunk| && p.shift + p.byteCount <= Align(r.size)
      && chunk[..p.byteCount] == Pad(s.buffers[r.buf][..r.size])[p.shift..p.shift + p.byteCount]
  {
    var job, chunk := s.workers[w].run.job, s.chunks[s.workers[w].run.chunk];
    SameSlice(chunk, Padded(h, job.req), Piece(c, job).shift, Piece(c, job).byteCount);
  }

  lemma MoveIsWrite(c: Config, s: State, w: nat)
    requires Sized(c, s) && CanMove(c, s, w) && s.workers[w].run.job.req.write
    ensures
      var job, chunk, t := s.workers[w].run.job, s.chunks[s.workers[w].run.chunk], DoMove(c, s, w);
      var p, r := Piece(c, job), job.req;
      && 0 < p.byteCount <= |chunk| && r.file < |s.files| && t.buffers == s.buffers
      && t.files == s.files[r.file := PWrite(s.files[r.file], r.offset + p.shift, chunk[..p.byteCount])]
  {
    ChunkBounds(s.workers[w].run.job.req.size, c.block, s.workers[w].run.job.i);
  }

  lemma MovedWrite(c: Config, s: State, h: History, w: nat)
    requires Sized(c, s) && CanMove(c, s, w) && Busy(s) && ChunkContent(c, s, h, w) && s.workers[w].run.job.req.write
    requires s.buffers == h.base.buffers
    ensures Fits(DoMove(c, s, w).files, DoMove(c, s, w).buffers, s.workers[w].run.job.req)
    ensures InPlace(c, DoMove(c, s, w), s.workers[w].run.job)
  {
    WriteChunkIs(c, s, h, w);
    MoveIsWrite(c, s, w);
    var job, chunk, t := s.workers[w].run.job, s.chunks[s.workers[w].run.chunk], DoMove(c, s, w);
    WriteInPlace(c, t, job, s.files[job.req.file], chunk[..Piece(c, job).byteCount]);
  }

  lemma WriteInPlace(c: Config, t: State, job: Job, was: seq<byte>, data: seq<byte>)
    requires c.block > 0 && job.i < Count(c, job.req) && job.req.write && Fits(t.files, t.buffers, job.req)
    requires var p, r := Piece(c, job), job.req;
             && |data| == p.byteCount > 0 && p.shift + p.byteCount <= Align(r.size)
             && data == Pad(t.buffers[r.buf][..r.size])[p.shift..p.shift + p.byteCount]
             && t.files[r.file] == PWrite(was, r.offset + p.shift, data)
    ensures InPlace(c, t, job)
  {
    WrittenSlice(was, job.req.offset + Piece(c, job).shift, data);
  }

  lemma SameSlice(chunk: seq<byte>, data: seq<byte>, shift: nat, n: nat)
    requires n <= |chunk| && shift + n <= |data| && forall q :: 0 <= q < n ==> chunk[q] == data[shift + q]
    ensures chunk[..n] == data[shift..shift + n]
  {
  }

  lemma WrittenSlice(file: seq<byte>, off: nat, data: seq<byte>)
    requires data != []
    ensures off + |data| <= |PWrite(file, off, data)| && PWrite(file, off, data)[off..off + |data|] == data
  {
  }

  lemma MovedRead(c: Config, s: State, h: History, w: nat)
    requires Sized(c, s) && CanMove(c, s, w) && Busy(s) && ChunkContent(c, s, h, w) && !s.workers[w].run.job.req.write
    requires s.files == h.base.files
    ensures Fits(DoMove(c, s, w).files, DoMove(c, s, w).buffers, s.workers[w].run.job.req)
    ensures InPlace(c, DoMove(c, s, w), s.workers[w].run.job)
  {
    var job, chunk := s.workers[w].run.job, s.chunks[s.workers[w].run.chunk];
    ChunkBounds(job.req.size, c.block, job.i);
    var p, r := Piece(c, job), job.req;
    if p.copyCount > 0 {
      assert chunk[..p.copyCount] == s.files[r.file][r.offset + p.shift..r.offset + p.shift + p.copyCount];
    }
  }

  lemma ReleaseEffect(c: Config, m: Memory, s: State, w: nat)
    requires Alive(c, m, s) && CanRelease(s, w)
    ensures Alive(c, m, DoRelease(s, w))
    ensures var t, k := DoRelease(s, w), s.workers[w].run.chunk; k in t.free && forall v: nat :: !HoldsChunk(t, v, k)
  {
    AliveStep(c, m, s, Release(w));
    var t, k := DoRelease(s, w), s.workers[w].run.chunk;
    var h := ReachableInv(c, m, t);
    assert t.free[|s.free|] == k;
  }

  /** The callback has run exactly once, and the counter is still exact. */
  lemma FinishEffect(c: Config, m: Memory, s: State, w: nat)
    requires Alive(c, m, s) && CanFinish(s, w)
    ensures Alive(c, m, DoFinish(s, w)) && Counted(DoFinish(s, w), w)
    ensures DoFinish(s, w).ran[s.workers[w].run.job] == 1
  {
    AliveStep(c, m, s, Finish(w));
    var t, job := DoFinish(s, w), s.workers[w].run.job;
    PendingIsExact(c, m, t, w);
    CallbacksRunOnce(c, m, t, job.req, job.i);
    assert Job(job.req, job.i) == job;
  }
}
