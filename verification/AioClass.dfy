/**
 * The I/O path as an object: one method per step.  Every state of the object is one that the step
 * machine reaches, so what holds over all runs holds of the object after every call.
 */
module AioClass {
  import opened Bytes
  import opened Chunks
  import opened AioModel
  import opened AioInvariant
  import opened AioEffects

  /** The memcpy and the memset of a write callback. */
  method CopyAndPad(chunk: seq<byte>, buffer: seq<byte>, p: Chunk) returns (r: seq<byte>)
    requires p.copyCount <= p.byteCount <= |chunk| && (p.copyCount > 0 ==> p.shift + p.copyCount <= |buffer|)
    ensures r == (if p.copyCount > 0 then buffer[p.shift..p.shift + p.copyCount] else [])
                 + Zeros(p.byteCount - p.copyCount) + chunk[p.byteCount..]
  {
    r := chunk;
    if p.copyCount > 0 {
      r := buffer[p.shift..p.shift + p.copyCount] + r[p.copyCount..];
    }
    if p.copyCount < p.byteCount {
      r := r[..p.copyCount] + Zeros(p.byteCount - p.copyCount) + r[p.byteCount..];
    }
  }

  /** The positioned read of a read callback: the file may end early. */
  method ReadPiece(chunk: seq<byte>, file: seq<byte>, at: nat, n: nat) returns (r: seq<byte>)
    requires n <= |chunk|
    ensures var got := if at >= |file| then [] else if at + n <= |file| then file[at..at + n] else file[at..];
            r == got + chunk[|got|..]
  {
    r := chunk;
    if at < |file| {
      var got := if at + n <= |file| then file[at..at + n] else file[at..];
      r := got + r[|got|..];
    }
  }

  method FillPiece(c: Config, ghost s: State, w: nat, job: Job, was: seq<byte>, files: seq<seq<byte>>, buffers: seq<seq<byte>>)
    returns (chunk: seq<byte>)
    requires Sized(c, s) && CanFill(c, s, w) && job == s.workers[w].run.job && was == s.chunks[s.workers[w].run.chunk]
    requires files == s.files && buffers == s.buffers
    ensures chunk == FilledChunk(c, s, w)
  {
    ChunkBounds(job.req.size, c.block, job.i);
    var p := Piece(c, job);
    if job.req.write {
      chunk := CopyAndPad(was, buffers[job.req.buf], p);
    } else {
      chunk := ReadPiece(was, files[job.req.file], job.req.offset + p.shift, p.byteCount);
    }
  }

  /** A write goes to the file, the payload of a read to the caller's buffer. */
  method MovePiece(c: Config, ghost s: State, w: nat, job: Job, chunk: seq<byte>, files: seq<seq<byte>>, buffers: seq<seq<byte>>)
    returns (f: seq<seq<byte>>, b: seq<seq<byte>>)
    requires Sized(c, s) && CanMove(c, s, w) && job == s.workers[w].run.job && chunk == s.chunks[s.workers[w].run.chunk]
    requires files == s.files && buffers == s.buffers
    ensures DoMove(c, s, w) == SetPhase(s, w, Moved).(files := f, buffers := b)
  {
    ChunkBounds(job.req.size, c.block, job.i);
    var p, r := Piece(c, job), job.req;
    f, b := files, buffers;
    if r.write {
      f := files[r.file := PWrite(files[r.file], r.offset + p.shift, chunk[..p.byteCount])];
    } else if p.copyCount > 0 {
      var whole := buffers[r.buf];
      b := buffers[r.buf := whole[..p.shift] + chunk[..p.copyCount] + whole[p.shift + p.copyCount..]];
    }
  }

  class AioContext {
    const config: Config
    var high: seq<Request>
    var low: seq<Request>
    var sched: Sched
    var workers: seq<Worker>
    var free: seq<nat>
    var chunks: seq<seq<byte>>
    var files: seq<seq<byte>>
    var buffers: seq<seq<byte>>
    var nextId: nat
    var done: seq<Request>
    ghost var log: seq<Event>
    ghost var ran: multiset<Job>
    /** Files and buffers at the start. */
    ghost const start: Memory

    ghost function Snapshot(): State
      reads this
    {
      State(high, low, sched, workers, free, chunks, files, buffers, nextId, done, log, ran)
    }

    ghost predicate Valid()
      reads this
    {
      Alive(config, start, Snapshot())
    }

    /** Workers idle, a pool of four zeroed chunks per worker, all free. */
    constructor (c: Config, files: seq<seq<byte>>, buffers: seq<seq<byte>>)
      requires ConfigOk(c)
      ensures Valid() && config == c && Initial(c, Snapshot())
      ensures this.files == files && this.buffers == buffers && start == Memory(files, buffers)
    {
      config := c;
      start := Memory(files, buffers);
      high, low, sched := [], [], AtWait;
      workers := seq(c.workers, _ => Worker([], Off, 0));
      free := seq(CHUNKS_PER_WORKER * c.workers, i => i);
      chunks := seq(CHUNKS_PER_WORKER * c.workers, _ => Zeros(c.block));
      this.files, this.buffers := files, buffers;
      nextId, done, log, ran := 0, [], [], multiset{};
      new;
      StartsAlive(c, Snapshot());
    }

    /** The request joins its class behind all accepted before it. */
    method AcceptRequest(r: Request, highPrio: bool)
      requires Valid() && CanAccept(Snapshot(), r)
      modifies this
      ensures Valid() && Snapshot() == DoAccept(old(Snapshot()), r, highPrio)
      ensures InOrder(Snapshot())
      ensures if highPrio then high == old(high) + [r] && low == old(low) else high == old(high) && low == old(low) + [r]
    {
      ghost var before := Snapshot();
      if highPrio {
        high := high + [r];
      } else {
        low := low + [r];
      }
      nextId := nextId + 1;
      log := log + [Accepted(r, highPrio)];
      assert Snapshot() == DoAccept(before, r, highPrio);
      AcceptEffect(config, start, before, r, highPrio);
    }

    /** One look at the high queue: its oldest request is taken, or all of them were. */
    method LookHigh()
      requires Valid() && sched.AtWait? && (high != [] || low != []) && (high != [] ==> Fits(files, buffers, high[0]))
      modifies this
      ensures Valid()
      ensures Snapshot() == if old(high) != [] then DoTakeHigh(old(Snapshot())) else DoSkipHigh(old(Snapshot()))
      ensures old(high) != [] ==> InOrder(Snapshot()) && Oldest(old(Snapshot()), sched.req, true)
      ensures old(high) == [] ==> Arrivals(log, true) == Departures(log, true)
    {
      if high != [] {
        TakeHighEffect(config, start, Snapshot());
        log := log + [Taken(high[0], true)];
        sched := Dispatching(high[0], 0);
        high := high[1..];
      } else {
        SkipHighEffect(config, start, Snapshot());
        sched := HighEmpty;
      }
    }

    /** The oldest low-priority request is taken, and no waiting high-priority one has been passed twice. */
    method TakeLow()
      requires Valid() && CanTakeLow(Snapshot())
      modifies this
      ensures Valid() && Snapshot() == DoTakeLow(old(Snapshot()))
      ensures InOrder(Snapshot()) && Oldest(old(Snapshot()), sched.req, false) && InversionsBounded(log)
    {
      TakeLowEffect(config, start, Snapshot());
      log := log + [Taken(low[0], false)];
      sched := Dispatching(low[0], 0);
      low := low[1..];
    }

    method Enqueue(w: nat)
      requires Valid() && CanDispatch(config, Snapshot(), w)
      modifies this`workers, this`sched
      ensures Valid() && Snapshot() == DoDispatch(config, old(Snapshot()), w)
      ensures Counted(Snapshot(), w) && workers[w].queue == old(workers[w].queue) + [Job(old(sched.req), old(sched.k))]
    {
      DispatchEffect(config, start, Snapshot(), w);
      var x := workers[w];
      workers := workers[w := x.(queue := x.queue + [Job(sched.req, sched.k)], pending := x.pending + 1)];
      sched := sched.(k := sched.k + 1);
    }

    /** Every callback of the request is queued, runs, or has run once. */
    method StartWait()
      requires Valid() && CanStartDrain(config, Snapshot())
      modifies this`sched
      ensures Valid() && Snapshot() == DoStartDrain(old(Snapshot()))
      ensures forall i: nat :: i < Count(config, sched.req) ==> HandedOut(Snapshot(), Job(sched.req, i))
    {
      StartDrainEffect(config, start, Snapshot());
      sched := Draining(sched.req, 0);
    }

    /** Clearing the worker's list drops nothing. */
    method WaitWorker()
      requires Valid() && CanDrain(config, Snapshot())
      modifies this`workers, this`sched
      ensures Valid() && Snapshot() == DoDrain(config, old(Snapshot()))
      ensures workers == old(workers)
    {
      DrainEffect(config, start, Snapshot());
      workers := workers[sched.w := workers[sched.w].(queue := [])];
      sched := sched.(w := sched.w + 1);
    }

    method Complete()
      requires Valid() && CanComplete(config, Snapshot())
      modifies this`sched, this`done
      ensures Valid() && Snapshot() == DoComplete(old(Snapshot()))
      ensures Completed(config, start, Snapshot(), old(sched.req))
    {
      CompleteEffect(config, start, Snapshot());
      done := done + [sched.req];
      sched := AtWait;
    }

    method PopCallback(w: nat)
      requires Valid() && CanPop(Snapshot(), w)
      modifies this`workers
      ensures Valid() && Snapshot() == DoPop(old(Snapshot()), w)
      ensures Counted(Snapshot(), w) && old(workers[w].queue) == [workers[w].run.job] + workers[w].queue
    {
      PopEffect(config, start, Snapshot(), w);
      var x := workers[w];
      workers := workers[w := x.(queue := x.queue[1..], run := Running(x.queue[0], Started, 0))];
    }

    /** The pool's Acquire: the front of the free list. */
    method Acquire(w: nat)
      requires Valid() && CanAcquire(Snapshot(), w)
      modifies this`workers, this`free
      ensures Valid() && Snapshot() == DoAcquire(old(Snapshot()), w)
      ensures old(free) == [workers[w].run.chunk] + free
      ensures OnlyHolder(Snapshot(), w, old(free[0])) && forall v: nat :: !HoldsChunk(old(Snapshot()), v, old(free[0]))
    {
      AcquireEffect(config, start, Snapshot(), w);
      var chunk := free[0];
      free := free[1..];
      workers := workers[w := workers[w].(run := Running(workers[w].run.job, Holding, chunk))];
    }

    method FillChunk(w: nat)
      requires Valid() && CanFill(config, Snapshot(), w)
      modifies this`workers, this`chunks
      ensures Valid() && Snapshot() == DoFill(config, old(Snapshot()), w)
      ensures ChunkIs(config, Snapshot(), w)
    {
      FillEffect(config, start, Snapshot(), w);
      var job, k := workers[w].run.job, workers[w].run.chunk;
      var chunk := FillPiece(config, Snapshot(), w, job, chunks[k], files, buffers);
      chunks := chunks[k := chunk];
      workers := workers[w := workers[w].(run := workers[w].run.(phase := Filled))];
    }

    method MoveChunk(w: nat)
      requires Valid() && CanMove(config, Snapshot(), w)
      modifies this`workers, this`files, this`buffers
      ensures Valid() && Snapshot() == DoMove(config, old(Snapshot()), w)
      ensures Fits(files, buffers, old(workers[w].run.job.req)) && InPlace(config, Snapshot(), old(workers[w].run.job))
    {
      MoveEffect(config, start, Snapshot(), w);
      var run := workers[w].run;
      files, buffers := MovePiece(config, Snapshot(), w, run.job, chunks[run.chunk], files, buffers);
      workers := workers[w := workers[w].(run := run.(phase := Moved))];
    }

    /** The pool's Release: the back of the free list. */
    method ReleaseChunk(w: nat)
      requires Valid() && CanRelease(Snapshot(), w)
      modifies this`workers, this`free
      ensures Valid() && Snapshot() == DoRelease(old(Snapshot()), w)
      ensures free == old(free) + [old(workers[w].run.chunk)] && forall v: nat :: !HoldsChunk(Snapshot(), v, old(workers[w].run.chunk))
    {
      ReleaseEffect(config, start, Snapshot(), w);
      free := free + [workers[w].run.chunk];
      workers := workers[w := workers[w].(run := workers[w].run.(phase := Released))];
    }

    /** The callback has run once, and the counter is exact. */
    method FinishCallback(w: nat)
      requires Valid() && CanFinish(Snapshot(), w)
      modifies this`workers, this`ran
      ensures Valid() && Snapshot() == DoFinish(old(Snapshot()), w)
      ensures Counted(Snapshot(), w) && ran[old(workers[w].run.job)] == 1
    {
      FinishEffect(config, start, Snapshot(), w);
      ran := ran + multiset{workers[w].run.job};
      workers := workers[w := workers[w].(run := Off, pending := workers[w].pending - 1)];
    }
  }
}
