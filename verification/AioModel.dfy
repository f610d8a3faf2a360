/**
 * The prioritised I/O path as a step machine: request queues, the scheduler thread,
 * the worker threads of the pool, and the pinned chunks the callbacks go through.
 *
 * A callback takes five steps: start, acquire a chunk, fill it, move it on, release
 * it.  All threads interleave freely.  Which worker receives a callback is left
 * open, so every placement policy is covered.
 */
module AioModel {
  import opened Bytes
  import opened Chunks

  datatype Request = Request(id: nat, write: bool, file: nat, buf: nat, size: nat, offset: nat)
  datatype Job = Job(req: Request, i: nat)

  datatype Phase = Started | Holding | Filled | Moved | Released
  datatype RunPc = Off | Running(job: Job, phase: Phase, chunk: nat)

  /** ArcherAioThread: its list of callbacks, what it runs, its pending counter. */
  datatype Worker = Worker(queue: seq<Job>, run: RunPc, pending: int)

  /** The scheduler thread: waiting, past an empty high queue, handing out callbacks,
      or waiting for the workers one after the other. */
  datatype Sched = AtWait | HighEmpty | Dispatching(req: Request, k: nat) | Draining(req: Request, w: nat)

  datatype Event = Accepted(req: Request, high: bool) | Taken(req: Request, high: bool)

  datatype Config = Config(block: nat, workers: nat)

  /** `done` lists the requests whose counter was stored to zero; `log` and `ran`
      record what happened and steer nothing. */
  datatype State = State(
    high: seq<Request>,
    low: seq<Request>,
    sched: Sched,
    workers: seq<Worker>,
    free: seq<nat>,
    chunks: seq<seq<byte>>,
    files: seq<seq<byte>>,
    buffers: seq<seq<byte>>,
    nextId: nat,
    done: seq<Request>,
    log: seq<Event>,
    ran: multiset<Job>)

  const CHUNKS_PER_WORKER := 4

  predicate Sized(c: Config, s: State) {
    && c.block > 0 && c.workers > 0
    && |s.workers| == c.workers
    && |s.chunks| == CHUNKS_PER_WORKER * c.workers
    && forall k :: 0 <= k < |s.chunks| ==> |s.chunks[k]| == c.block
  }

  /** The file is open and the caller's buffer holds the transfer. */
  predicate HasBuffer(files: seq<seq<byte>>, buffers: seq<seq<byte>>, r: Request) {
    r.file < |files| && r.buf < |buffers| && r.size <= |buffers[r.buf]|
  }

  /** And a read asks only for bytes the file has (a short read is not detected by the program). */
  predicate Fits(files: seq<seq<byte>>, buffers: seq<seq<byte>>, r: Request) {
    && HasBuffer(files, buffers, r)
    && (!r.write && r.size > 0 ==> r.offset + r.size <= |files[r.file]|)
  }

  function Count(c: Config, r: Request): nat
    requires c.block > 0
  {
    NumChunks(r.size, c.block)
  }

  function Piece(c: Config, job: Job): Chunk
    requires c.block > 0 && job.i < Count(c, job.req)
  {
    ChunkAt(job.req.size, c.block, job.i)
  }

  predicate JobFits(c: Config, s: State, job: Job)
    requires Sized(c, s)
  {
    job.i < Count(c, job.req) && Fits(s.files, s.buffers, job.req)
  }

  predicate RunningAt(s: State, w: nat, phase: Phase) {
    w < |s.workers| && s.workers[w].run.Running? && s.workers[w].run.phase == phase
  }

  function SetWorker(s: State, w: nat, x: Worker): State
    requires w < |s.workers|
  {
    s.(workers := s.workers[w := x])
  }

  function SetPhase(s: State, w: nat, phase: Phase): State
    requires w < |s.workers| && s.workers[w].run.Running?
  {
    SetWorker(s, w, s.workers[w].(run := s.workers[w].run.(phase := phase)))
  }

  // ---------------------------------------------------------------- clients and the scheduler

  /** AcceptRequest pushes at the back of one of the two queues. */
  predicate CanAccept(s: State, r: Request) {
    r.id == s.nextId && HasBuffer(s.files, s.buffers, r)
  }

  function DoAccept(s: State, r: Request, high: bool): State {
    var t := s.(nextId := s.nextId + 1, log := s.log + [Accepted(r, high)]);
    if high then t.(high := s.high + [r]) else t.(low := s.low + [r])
  }

  /** A read must find its bytes by the time it is taken; the write that puts them there may still
      have been queued when the read was accepted. */
  predicate CanTakeHigh(s: State) {
    s.sched.AtWait? && s.high != [] && Fits(s.files, s.buffers, s.high[0])
  }

  function DoTakeHigh(s: State): State
    requires CanTakeHigh(s)
  {
    s.(high := s.high[1..], sched := Dispatching(s.high[0], 0), log := s.log + [Taken(s.high[0], true)])
  }

  /** The high queue was looked at and empty; a request may still arrive there. */
  predicate CanSkipHigh(s: State) { s.sched.AtWait? && s.high == [] && s.low != [] }

  function DoSkipHigh(s: State): State { s.(sched := HighEmpty) }

  predicate CanTakeLow(s: State) {
    s.sched.HighEmpty? && s.low != [] && Fits(s.files, s.buffers, s.low[0])
  }

  function DoTakeLow(s: State): State
    requires CanTakeLow(s)
  {
    s.(low := s.low[1..], sched := Dispatching(s.low[0], 0), log := s.log + [Taken(s.low[0], false)])
  }

  predicate CanDispatch(c: Config, s: State, w: nat)
    requires Sized(c, s)
  {
    s.sched.Dispatching? && s.sched.k < Count(c, s.sched.req) && w < c.workers
  }

  /** One callback goes to the back of worker w's list and is counted. */
  function DoDispatch(c: Config, s: State, w: nat): State
    requires Sized(c, s) && CanDispatch(c, s, w)
  {
    var x := s.workers[w];
    SetWorker(s, w, x.(queue := x.queue + [Job(s.sched.req, s.sched.k)], pending := x.pending + 1))
      .(sched := Dispatching(s.sched.req, s.sched.k + 1))
  }

  predicate CanStartDrain(c: Config, s: State)
    requires Sized(c, s)
  {
    s.sched.Dispatching? && s.sched.k == Count(c, s.sched.req)
  }

  function DoStartDrain(s: State): State
    requires s.sched.Dispatching?
  {
    s.(sched := Draining(s.sched.req, 0))
  }

  predicate CanDrain(c: Config, s: State)
    requires Sized(c, s)
  {
    s.sched.Draining? && s.sched.w < c.workers && s.workers[s.sched.w].pending == 0
  }

  /** Waiting for one worker ends with clearing whatever is left of its list. */
  function DoDrain(c: Config, s: State): State
    requires Sized(c, s) && CanDrain(c, s)
  {
    SetWorker(s, s.sched.w, s.workers[s.sched.w].(queue := [])).(sched := Draining(s.sched.req, s.sched.w + 1))
  }

  predicate CanComplete(c: Config, s: State) { s.sched.Draining? && s.sched.w == c.workers }

  function DoComplete(s: State): State
    requires s.sched.Draining?
  {
    s.(sched := AtWait, done := s.done + [s.sched.req])
  }

  // ---------------------------------------------------------------- a worker

  predicate CanPop(s: State, w: nat) {
    w < |s.workers| && s.workers[w].run.Off? && s.workers[w].queue != []
  }

  function DoPop(s: State, w: nat): State
    requires CanPop(s, w)
  {
    var x := s.workers[w];
    SetWorker(s, w, x.(queue := x.queue[1..], run := Running(x.queue[0], Started, 0)))
  }

  predicate CanAcquire(s: State, w: nat) { RunningAt(s, w, Started) && s.free != [] }

  function DoAcquire(s: State, w: nat): State
    requires CanAcquire(s, w)
  {
    SetWorker(s, w, s.workers[w].(run := Running(s.workers[w].run.job, Holding, s.free[0]))).(free := s.free[1..])
  }

  predicate CanFill(c: Config, s: State, w: nat)
    requires Sized(c, s)
  {
    RunningAt(s, w, Holding) && JobFits(c, s, s.workers[w].run.job) && s.workers[w].run.chunk < |s.chunks|
  }

  /** A write copies its payload and zero-fills the padding; a read takes what the file has. */
  function FilledChunk(c: Config, s: State, w: nat): (r: seq<byte>)
    requires Sized(c, s) && CanFill(c, s, w)
    ensures |r| == c.block
  {
    var job, was := s.workers[w].run.job, s.chunks[s.workers[w].run.chunk];
    var k := Piece(c, job);
    ChunkBounds(job.req.size, c.block, job.i);
    if job.req.write then
      (if k.copyCount > 0 then s.buffers[job.req.buf][k.shift..k.shift + k.copyCount] else [])
        + Zeros(k.byteCount - k.copyCount) + was[k.byteCount..]
    else
      var file, at := s.files[job.req.file], job.req.offset + k.shift;
      var got := if at >= |file| then [] else if at + k.byteCount <= |file| then file[at..at + k.byteCount] else file[at..];
      got + was[|got|..]
  }

  function DoFill(c: Config, s: State, w: nat): (t: State)
    requires Sized(c, s) && CanFill(c, s, w)
    ensures Sized(c, t)
  {
    SetPhase(s, w, Filled).(chunks := s.chunks[s.workers[w].run.chunk := FilledChunk(c, s, w)])
  }

  predicate CanMove(c: Config, s: State, w: nat)
    requires Sized(c, s)
  {
    RunningAt(s, w, Filled) && JobFits(c, s, s.workers[w].run.job) && s.workers[w].run.chunk < |s.chunks|
  }

  /** A write goes to the file at its offset; a read copies its payload to the caller's buffer. */
  function DoMove(c: Config, s: State, w: nat): (t: State)
    requires Sized(c, s) && CanMove(c, s, w)
    ensures Sized(c, t)
  {
    var job, chunk := s.workers[w].run.job, s.chunks[s.workers[w].run.chunk];
    var k := Piece(c, job);
    ChunkBounds(job.req.size, c.block, job.i);
    var t := SetPhase(s, w, Moved);
    if job.req.write then
      t.(files := s.files[job.req.file := PWrite(s.files[job.req.file], job.req.offset + k.shift, chunk[..k.byteCount])])
    else if k.copyCount > 0 then
      var b := s.buffers[job.req.buf];
      t.(buffers := s.buffers[job.req.buf := b[..k.shift] + chunk[..k.copyCount] + b[k.shift + k.copyCount..]])
    else t
  }

  predicate CanRelease(s: State, w: nat) { RunningAt(s, w, Moved) }

  function DoRelease(s: State, w: nat): State
    requires CanRelease(s, w)
  {
    SetPhase(s, w, Released).(free := s.free + [s.workers[w].run.chunk])
  }

  predicate CanFinish(s: State, w: nat) { RunningAt(s, w, Released) }

  function DoFinish(s: State, w: nat): State
    requires CanFinish(s, w)
  {
    SetWorker(s, w, s.workers[w].(run := Off, pending := s.workers[w].pending - 1))
      .(ran := s.ran + multiset{s.workers[w].run.job})
  }

  // ---------------------------------------------------------------- runs

  datatype Step =
    | Accept(r: Request, high: bool)
    | TakeHigh | SkipHigh | TakeLow
    | Dispatch(w: nat) | StartDrain | Drain | Complete
    | Pop(w: nat) | Acquire(w: nat) | Fill(w: nat) | Move(w: nat) | Release(w: nat) | Finish(w: nat)

  predicate Enabled(c: Config, s: State, step: Step)
    requires Sized(c, s)
  {
    match step
    case Accept(r, _) => CanAccept(s, r)
    case TakeHigh => CanTakeHigh(s)
    case SkipHigh => CanSkipHigh(s)
    case TakeLow => CanTakeLow(s)
    case Dispatch(w) => CanDispatch(c, s, w)
    case StartDrain => CanStartDrain(c, s)
    case Drain => CanDrain(c, s)
    case Complete => CanComplete(c, s)
    case Pop(w) => CanPop(s, w)
    case Acquire(w) => CanAcquire(s, w)
    case Fill(w) => CanFill(c, s, w)
    case Move(w) => CanMove(c, s, w)
    case Release(w) => CanRelease(s, w)
    case Finish(w) => CanFinish(s, w)
  }

  function Apply(c: Config, s: State, step: Step): (t: State)
    requires Sized(c, s) && Enabled(c, s, step)
    ensures Sized(c, t)
  {
    match step
    case Accept(r, high) => DoAccept(s, r, high)
    case TakeHigh => DoTakeHigh(s)
    case SkipHigh => DoSkipHigh(s)
    case TakeLow => DoTakeLow(s)
    case Dispatch(w) => DoDispatch(c, s, w)
    case StartDrain => DoStartDrain(s)
    case Drain => DoDrain(c, s)
    case Complete => DoComplete(s)
    case Pop(w) => DoPop(s, w)
    case Acquire(w) => DoAcquire(s, w)
    case Fill(w) => DoFill(c, s, w)
    case Move(w) => DoMove(c, s, w)
    case Release(w) => DoRelease(s, w)
    case Finish(w) => DoFinish(s, w)
  }

  predicate ConfigOk(c: Config) { c.block > 0 && c.workers > 0 }

  /** Nothing queued, all chunks free, any contents of files, buffers and chunks. */
  predicate Initial(c: Config, s: State) {
    && Sized(c, s)
    && s.high == [] && s.low == [] && s.sched == AtWait
    && (forall w :: 0 <= w < c.workers ==> s.workers[w] == Worker([], Off, 0))
    && s.free == seq(CHUNKS_PER_WORKER * c.workers, i => i)
    && s.nextId == 0 && s.done == [] && s.log == [] && s.ran == multiset{}
  }

  predicate Run(c: Config, s: State, steps: seq<Step>)
    requires Sized(c, s)
    decreases |steps|
  {
    steps == [] || (Enabled(c, s, steps[0]) && Run(c, Apply(c, s, steps[0]), steps[1..]))
  }

  function After(c: Config, s: State, steps: seq<Step>): (t: State)
    requires Sized(c, s) && Run(c, s, steps)
    ensures Sized(c, t)
    decreases |steps|
  {
    if steps == [] then s else After(c, Apply(c, s, steps[0]), steps[1..])
  }

  // ---------------------------------------------------------------- the sequential meaning

  datatype Memory = Memory(files: seq<seq<byte>>, buffers: seq<seq<byte>>)

  /** One request as a single transfer. */
  function Serve(m: Memory, r: Request): Memory
    requires Fits(m.files, m.buffers, r)
  {
    if r.write then
      m.(files := m.files[r.file := PWrite(m.files[r.file], r.offset, Pad(m.buffers[r.buf][..r.size]))])
    else if r.size == 0 then m
    else
      m.(buffers := m.buffers[r.buf := Overwrite(m.buffers[r.buf], m.files[r.file][r.offset..r.offset + r.size])])
  }

  predicate AllFit(m: Memory, rs: seq<Request>)
    decreases |rs|
  {
    rs == [] || (Fits(m.files, m.buffers, rs[0]) && AllFit(Serve(m, rs[0]), rs[1..]))
  }

  /** The requests one after the other. */
  function ServeAll(m: Memory, rs: seq<Request>): Memory
    requires AllFit(m, rs)
    decreases |rs|
  {
    if rs == [] then m else ServeAll(Serve(m, rs[0]), rs[1..])
  }

  lemma {:induction false} ServeSnoc(m: Memory, rs: seq<Request>, r: Request)
    requires AllFit(m, rs) && Fits(ServeAll(m, rs).files, ServeAll(m, rs).buffers, r)
    ensures AllFit(m, rs + [r]) && ServeAll(m, rs + [r]) == Serve(ServeAll(m, rs), r)
    decreases |rs|
  {
    if rs == [] {
      assert [r][1..] == [];
      assert rs + [r] == [r];
    } else {
      assert (rs + [r])[1..] == rs[1..] + [r];
      ServeSnoc(Serve(m, rs[0]), rs[1..], r);
    }
  }

  /** Writing and then reading the same range gives the written bytes back. */
  lemma WriteThenRead(m: Memory, w: Request, r: Request)
    requires w.write && !r.write && Fits(m.files, m.buffers, w)
    requires r.file == w.file && r.offset == w.offset && r.size == w.size
    requires r.buf < |m.buffers| && r.size <= |m.buffers[r.buf]|
    ensures Fits(Serve(m, w).files, m.buffers, r)
    ensures Serve(Serve(m, w), r).buffers[r.buf][..r.size] == m.buffers[w.buf][..w.size]
  {
    var data := m.buffers[w.buf][..w.size];
    var file := Serve(m, w).files[w.file];
    if w.size > 0 {
      assert Pad(data) != [];
      assert file[w.offset..w.offset + w.size] == data;
    } else {
      assert Pad(data) == [];
    }
  }
}
