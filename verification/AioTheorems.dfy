/** The I/O path's guarantees over whole runs. */
module AioTheorems {
  import opened Basics
  import opened Chunks
  import opened AioModel
  import opened AioInvariant
  import opened AioFlow
  import opened AioData
  import opened AioLog

  // ---------------------------------------------------------------- every step

  lemma AcceptFlow(c: Config, s: State, h: History, r: Request, high: bool, k: History)
    requires FlowOk(c, s, h) && PoolOk(c, s) && CanAccept(s, r) && k.place == h.place
    ensures FlowOk(c, DoAccept(s, r, high), k) && PoolOk(c, DoAccept(s, r, high))
  {
    FlowFrame(c, s, h, DoAccept(s, r, high), k);
    PoolFrame(c, s, DoAccept(s, r, high));
  }

  lemma AcceptMemory(c: Config, s: State, h: History, r: Request, high: bool, k: History)
    requires Sized(c, s) && MemoryOk(c, s, h) && CanAccept(s, r) && k == h.(whereIs := k.whereIs)
    ensures MemoryOk(c, DoAccept(s, r, high), k)
  {
    var t := DoAccept(s, r, high);
    if Busy(s) { ProgressFrame(c, s, h, t, k); }
    ContentsFrame(c, s, h, t, k);
  }

  lemma StepAccept(c: Config, s: State, h: History, r: Request, high: bool) returns (k: History)
    requires Inv(c, s, h) && CanAccept(s, r)
    ensures Inv(c, DoAccept(s, r, high), k) && k.start == h.start
  {
    k := h.(whereIs := h.whereIs + [if high then InHigh else InLow]);
    AcceptFlow(c, s, h, r, high, k);
    AcceptMemory(c, s, h, r, high, k);
    RequestsAccept(s, h, r, high);
    RanFrame(c, s, h, DoAccept(s, r, high), k);
    LogAccept(s, r, high);
  }

  lemma StepTakeHigh(c: Config, s: State, h: History) returns (k: History)
    requires Inv(c, s, h) && CanTakeHigh(s)
    ensures Inv(c, DoTakeHigh(s), k) && k.start == h.start
  {
    var t, r := DoTakeHigh(s), s.high[0];
    k := AfterTake(c, h, r);
    FlowTake(c, s, h, t, k, r);
    PoolFrame(c, s, t);
    RequestsTakeHigh(c, s, h);
    RanTake(c, s, h, t, k, r);
    LogTakeHigh(s);
    DataTake(c, s, h, t, k, r);
  }

  lemma StepTakeLow(c: Config, s: State, h: History) returns (k: History)
    requires Inv(c, s, h) && CanTakeLow(s)
    ensures Inv(c, DoTakeLow(s), k) && k.start == h.start
  {
    var t, r := DoTakeLow(s), s.low[0];
    k := AfterTake(c, h, r);
    FlowTake(c, s, h, t, k, r);
    PoolFrame(c, s, t);
    RequestsTakeLow(c, s, h);
    RanTake(c, s, h, t, k, r);
    LogTakeLow(s);
    DataTake(c, s, h, t, k, r);
  }

  lemma StepSkipHigh(c: Config, s: State, h: History)
    requires Inv(c, s, h) && CanSkipHigh(s)
    ensures Inv(c, DoSkipHigh(s), h)
  {
    var t := DoSkipHigh(s);
    FlowFrame(c, s, h, t, h);
    PoolFrame(c, s, t);
    RequestsFrame(s, h, t, h);
    RanFrame(c, s, h, t, h);
    LogSkipHigh(s);
    ContentsFrame(c, s, h, t, h);
  }

  /** A step that only moves a callback between places before it takes effect, or records that it is over. */
  lemma StepQuiet(c: Config, s: State, h: History, t: State, k: History)
    requires Inv(c, s, h) && FlowOk(c, t, k) && Busy(s) && Busy(t) && Current(s) == Current(t)
    requires k.base == h.base && k.whereIs == h.whereIs && |k.place| == |h.place| && k.start == h.start
    requires t.files == s.files && t.buffers == s.buffers && t.chunks == s.chunks && t.free == s.free
    requires t.high == s.high && t.low == s.low && t.done == s.done && t.log == s.log && t.nextId == s.nextId
    requires forall i :: 0 <= i < |h.place| ==> (Applied(s, h.place[i]) <==> Applied(t, k.place[i]))
    requires forall w: nat :: RunningAt(t, w, Filled) ==> RunningAt(s, w, Filled) && t.workers[w].run == s.workers[w].run
    requires forall w: nat, n: nat :: HoldsChunk(t, w, n) <==> HoldsChunk(s, w, n)
    ensures PoolOk(c, t) && RequestsOk(t, k) && MemoryOk(c, t, k) && LogOk(t)
  {
    PoolFrame(c, s, t);
    RequestsFrame(s, h, t, k);
    LogFrame(s, t);
    ProgressFrame(c, s, h, t, k);
    ContentsFrame(c, s, h, t, k);
  }

  lemma StepDispatch(c: Config, s: State, h: History, w: nat) returns (k: History)
    requires Inv(c, s, h) && CanDispatch(c, s, w)
    ensures Inv(c, DoDispatch(c, s, w), k) && k.start == h.start
  {
    var t := DoDispatch(c, s, w);
    k := SetPlace(h, s.sched.k, Queued(w));
    FlowDispatch(c, s, h, w);
    assert h.place[s.sched.k] == Waiting;
    StepQuiet(c, s, h, t, k);
    RanFrame(c, s, h, t, k);
  }

  lemma StepStartDrain(c: Config, s: State, h: History)
    requires Inv(c, s, h) && CanStartDrain(c, s)
    ensures Inv(c, DoStartDrain(s), h)
  {
    FlowStartDrain(c, s, h);
    StepQuiet(c, s, h, DoStartDrain(s), h);
    RanFrame(c, s, h, DoStartDrain(s), h);
  }

  lemma StepDrain(c: Config, s: State, h: History)
    requires Inv(c, s, h) && CanDrain(c, s)
    ensures Inv(c, DoDrain(c, s), h)
  {
    FlowDrain(c, s, h);
    StepQuiet(c, s, h, DoDrain(c, s), h);
    RanFrame(c, s, h, DoDrain(c, s), h);
  }

  lemma StepComplete(c: Config, s: State, h: History) returns (k: History)
    requires Inv(c, s, h) && CanComplete(c, s)
    ensures Inv(c, DoComplete(s), k) && k.start == h.start
  {
    var t := DoComplete(s);
    k := SetWhere(h, Current(s).id, Served).(base := Memory(s.files, s.buffers));
    FlowComplete(c, s, h, k);
    PoolFrame(c, s, t);
    RequestsComplete(c, s, h, k);
    RanComplete(c, s, h, k);
    LogFrame(s, t);
    DataComplete(c, s, h, k);
  }

  lemma StepPop(c: Config, s: State, h: History, w: nat) returns (k: History)
    requires Inv(c, s, h) && CanPop(s, w)
    ensures Inv(c, DoPop(s, w), k) && k.start == h.start
  {
    FlowPop(c, s, h, w);
    var t := DoPop(s, w);
    k := SetPlace(h, s.workers[w].queue[0].i, OnWorker(w));
    assert WorkerOk(s, h, w);
    assert JobAt(s, h, s.workers[w].queue[0], Queued(w));
    forall i | 0 <= i < |h.place| ensures Applied(s, h.place[i]) <==> Applied(t, k.place[i]) {
      assert JobOk(s, h, i);
    }
    StepQuiet(c, s, h, t, k);
    RanFrame(c, s, h, t, k);
  }

  lemma StepAcquire(c: Config, s: State, h: History, w: nat)
    requires Inv(c, s, h) && CanAcquire(s, w)
    ensures Inv(c, DoAcquire(s, w), h)
  {
    var t := DoAcquire(s, w);
    assert WorkerOk(s, h, w);
    FlowPhase(c, s, h, t, w);
    PoolAcquire(c, s, w);
    RequestsFrame(s, h, t, h);
    RanFrame(c, s, h, t, h);
    LogFrame(s, t);
    ProgressFrame(c, s, h, t, h);
    ContentsFrame(c, s, h, t, h);
  }

  lemma StepFill(c: Config, s: State, h: History, w: nat)
    requires Inv(c, s, h) && CanFill(c, s, w)
    ensures Inv(c, DoFill(c, s, w), h)
  {
    var t := DoFill(c, s, w);
    assert WorkerOk(s, h, w);
    DataFill(c, s, h, w);
    FlowPhase(c, s, h, t, w);
    PoolFrame(c, s, t);
    RequestsFrame(s, h, t, h);
    RanFrame(c, s, h, t, h);
    LogFrame(s, t);
  }

  lemma StepMove(c: Config, s: State, h: History, w: nat)
    requires Inv(c, s, h) && CanMove(c, s, w)
    ensures Inv(c, DoMove(c, s, w), h)
  {
    DataMove(c, s, h, w);
    MoveFlow(c, s, h, w);
    MoveRequests(c, s, h, w);
    LogFrame(s, DoMove(c, s, w));
  }

  lemma MoveFlow(c: Config, s: State, h: History, w: nat)
    requires FlowOk(c, s, h) && PoolOk(c, s) && CanMove(c, s, w)
    ensures FlowOk(c, DoMove(c, s, w), h) && PoolOk(c, DoMove(c, s, w))
  {
    assert WorkerOk(s, h, w);
    FlowPhase(c, s, h, DoMove(c, s, w), w);
    PoolFrame(c, s, DoMove(c, s, w));
  }

  lemma MoveRequests(c: Config, s: State, h: History, w: nat)
    requires Sized(c, s) && RequestsOk(s, h) && RanOk(c, s, h) && CanMove(c, s, w)
    ensures RequestsOk(DoMove(c, s, w), h) && RanOk(c, DoMove(c, s, w), h)
  {
    MoveGrows(c, s, w);
    RequestsFrame(s, h, DoMove(c, s, w), h);
    RanFrame(c, s, h, DoMove(c, s, w), h);
  }

  lemma StepRelease(c: Config, s: State, h: History, w: nat)
    requires Inv(c, s, h) && CanRelease(s, w)
    ensures Inv(c, DoRelease(s, w), h)
  {
    var t := DoRelease(s, w);
    assert WorkerOk(s, h, w);
    FlowPhase(c, s, h, t, w);
    PoolRelease(c, s, w);
    RequestsFrame(s, h, t, h);
    RanFrame(c, s, h, t, h);
    LogFrame(s, t);
    ProgressFrame(c, s, h, t, h);
    ContentsFrame(c, s, h, t, h);
  }

  lemma StepFinish(c: Config, s: State, h: History, w: nat) returns (k: History)
    requires Inv(c, s, h) && CanFinish(s, w)
    ensures Inv(c, DoFinish(s, w), k) && k.start == h.start
  {
    FlowFinish(c, s, h, w);
    var t := DoFinish(s, w);
    k := SetPlace(h, s.workers[w].run.job.i, Finished);
    assert WorkerOk(s, h, w);
    forall i | 0 <= i < |h.place| ensures Applied(s, h.place[i]) <==> Applied(t, k.place[i]) {
      assert JobOk(s, h, i);
    }
    StepQuiet(c, s, h, t, k);
    RanFinish(c, s, h, w);
  }

  lemma SchedulerKeepsInv(c: Config, s: State, h: History, step: Step) returns (k: History)
    requires Inv(c, s, h) && Enabled(c, s, step)
    requires step.Accept? || step.TakeHigh? || step.SkipHigh? || step.TakeLow?
    ensures Inv(c, Apply(c, s, step), k) && k.start == h.start
  {
    k := h;
    match step
    case Accept(r, high) => k := StepAccept(c, s, h, r, high);
    case TakeHigh => k := StepTakeHigh(c, s, h);
    case SkipHigh => StepSkipHigh(c, s, h);
    case TakeLow => k := StepTakeLow(c, s, h);
  }

  lemma PoolKeepsInv(c: Config, s: State, h: History, step: Step) returns (k: History)
    requires Inv(c, s, h) && Enabled(c, s, step)
    requires step.Dispatch? || step.StartDrain? || step.Drain? || step.Complete?
    ensures Inv(c, Apply(c, s, step), k) && k.start == h.start
  {
    k := h;
    match step
    case Dispatch(w) => k := StepDispatch(c, s, h, w);
    case StartDrain => StepStartDrain(c, s, h);
    case Drain => StepDrain(c, s, h);
    case Complete => k := StepComplete(c, s, h);
  }

  lemma ChunkKeepsInv(c: Config, s: State, h: History, step: Step)
    requires Inv(c, s, h) && Enabled(c, s, step) && (step.Acquire? || step.Fill? || step.Move? || step.Release?)
    ensures Inv(c, Apply(c, s, step), h)
  {
    match step
    case Acquire(w) => StepAcquire(c, s, h, w);
    case Fill(w) => StepFill(c, s, h, w);
    case Move(w) => StepMove(c, s, h, w);
    case Release(w) => StepRelease(c, s, h, w);
  }

  lemma StepKeepsInv(c: Config, s: State, h: History, step: Step) returns (k: History)
    requires Inv(c, s, h) && Enabled(c, s, step)
    ensures Inv(c, Apply(c, s, step), k) && k.start == h.start
  {
    if step.Accept? || step.TakeHigh? || step.SkipHigh? || step.TakeLow? {
      k := SchedulerKeepsInv(c, s, h, step);
    } else if step.Dispatch? || step.StartDrain? || step.Drain? || step.Complete? {
      k := PoolKeepsInv(c, s, h, step);
    } else if step.Pop? {
      k := StepPop(c, s, h, step.w);
    } else if step.Finish? {
      k := StepFinish(c, s, h, step.w);
    } else {
      k := h;
      ChunkKeepsInv(c, s, h, step);
    }
  }

  // ---------------------------------------------------------------- every run

  lemma {:induction false} RunKeepsInv(c: Config, s: State, h: History, steps: seq<Step>) returns (k: History)
    requires Inv(c, s, h) && Run(c, s, steps)
    ensures Inv(c, After(c, s, steps), k) && k.start == h.start
    decreases |steps|
  {
    if steps == [] {
      k := h;
    } else {
      var m := StepKeepsInv(c, s, h, steps[0]);
      k := RunKeepsInv(c, Apply(c, s, steps[0]), m, steps[1..]);
    }
  }

  ghost function FreshHistory(s: State): History {
    History([], Memory(s.files, s.buffers), Memory(s.files, s.buffers), [])
  }

  lemma InitialInv(c: Config, s: State)
    requires Initial(c, s)
    ensures Inv(c, s, FreshHistory(s))
  {
    var h := FreshHistory(s);
    forall w | 0 <= w < |s.workers| ensures WorkerOk(s, h, w) {
    }
    forall k | 0 <= k < |s.chunks| ensures Available(s, k) {
      assert s.free[k] == k;
    }
    assert forall w: nat, k: nat :: !HoldsChunk(s, w, k);
  }

  /** States reached from an initial one; `m` is the memory the run started with. */
  ghost predicate Reachable(c: Config, m: Memory, s: State) {
    exists first, steps :: Initial(c, first) && m == Memory(first.files, first.buffers) && RunsTo(c, first, steps, s)
  }

  ghost predicate RunsTo(c: Config, first: State, steps: seq<Step>, s: State) {
    Sized(c, first) && Run(c, first, steps) && After(c, first, steps) == s
  }

  lemma ReachableInv(c: Config, m: Memory, s: State) returns (h: History)
    requires Reachable(c, m, s)
    ensures Inv(c, s, h) && h.start == m
  {
    var first, steps :| Initial(c, first) && m == Memory(first.files, first.buffers) && RunsTo(c, first, steps, s);
    InitialInv(c, first);
    h := RunKeepsInv(c, first, FreshHistory(first), steps);
  }

  // ---------------------------------------------------------------- theorems

  /** Parallel chunked service equals sequential service: whenever no request is in
      the pool, files and buffers are what the completed requests give when served
      whole, one after the other, in the order the scheduler took them. */
  lemma ServedInOrder(c: Config, m: Memory, s: State)
    requires Reachable(c, m, s) && !Busy(s)
    ensures AllFit(m, s.done) && Memory(s.files, s.buffers) == ServeAll(m, s.done)
    ensures s.done == AllDepartures(s.log)
  {
    var h := ReachableInv(c, m, s);
  }

  /** The same at the moment a request is completed: its transfer is in memory in full. */
  lemma CompletionIsWhole(c: Config, m: Memory, s: State)
    requires Reachable(c, m, s) && CanComplete(c, s)
    ensures AllFit(m, s.done + [Current(s)])
    ensures Memory(s.files, s.buffers) == ServeAll(m, s.done + [Current(s)])
  {
    var h := ReachableInv(c, m, s);
    CompleteServes(c, s, h);
    ServeSnoc(m, s.done, Current(s));
  }

  /** A client's Wait returns once its counter is zero: completed, or without callbacks from the start. */
  predicate WaitReturns(c: Config, s: State, r: Request)
    requires c.block > 0
  {
    r in s.done || Count(c, r) == 0
  }

  /** No callback runs twice, and when Wait returns every callback of the request has run once. */
  lemma CallbacksRunOnce(c: Config, m: Memory, s: State, r: Request, i: nat)
    requires Reachable(c, m, s)
    ensures c.block > 0 && s.ran[Job(r, i)] <= 1
    ensures WaitReturns(c, s, r) && i < Count(c, r) ==> s.ran[Job(r, i)] == 1
  {
    var h := ReachableInv(c, m, s);
    if r in s.done {
      var n :| 0 <= n < |s.done| && s.done[n] == r;
      assert h.whereIs[s.done[n].id] == Served;
    }
  }

  /** Each worker's counter is what it has queued plus what it runs, so the clear at
      the end of a wait drops nothing; and only one request's callbacks are in the pool. */
  lemma PendingIsExact(c: Config, m: Memory, s: State, w: nat)
    requires Reachable(c, m, s) && w < |s.workers|
    ensures s.workers[w].pending == |s.workers[w].queue| + (if s.workers[w].run.Off? then 0 else 1)
    ensures s.workers[w].pending == 0 ==> s.workers[w].queue == []
    ensures forall job :: job in s.workers[w].queue ==> Busy(s) && job.req == Current(s)
    ensures s.workers[w].run.Running? ==> Busy(s) && s.workers[w].run.job.req == Current(s)
  {
    var h := ReachableInv(c, m, s);
    assert WorkerOk(s, h, w);
    forall job | job in s.workers[w].queue ensures Busy(s) && job.req == Current(s) {
      assert JobAt(s, h, job, Queued(w));
    }
  }

  /** Each class is served in the order of acceptance. */
  lemma ServedFirstComeFirstServed(c: Config, m: Memory, s: State)
    requires Reachable(c, m, s)
    ensures Arrivals(s.log, true) == Departures(s.log, true) + s.high
    ensures Arrivals(s.log, false) == Departures(s.log, false) + s.low
  {
    var h := ReachableInv(c, m, s);
  }

  /** Priority inversion is bounded: from the acceptance of a high request until it is
      taken, at most one low request is taken. */
  lemma PriorityInversionBounded(c: Config, m: Memory, s: State, a: nat, b: nat)
    requires Reachable(c, m, s)
    requires a < b <= |s.log| && s.log[a].Accepted? && s.log[a].high
    requires Taken(s.log[a].req, true) !in s.log[a..b]
    ensures LowTaken(s.log[a..b]) <= 1
  {
    var h := ReachableInv(c, m, s);
    assert InversionBounded(s.log, a, b);
  }

  /** A running callback is never blocked: a chunk is free when it wants one, and its
      transfer fits the chunk, the buffer and the file. */
  lemma CallbackNeverBlocks(c: Config, m: Memory, s: State, w: nat)
    requires Reachable(c, m, s) && w < |s.workers| && s.workers[w].run.Running?
    ensures Sized(c, s) && (CanAcquire(s, w) || CanFill(c, s, w) || CanMove(c, s, w) || CanRelease(s, w) || CanFinish(s, w))
    ensures s.workers[w].run.job.i < Count(c, s.workers[w].run.job.req)
    ensures Piece(c, s.workers[w].run.job).byteCount <= c.block
  {
    var h := ReachableInv(c, m, s);
    assert WorkerOk(s, h, w);
    var job := s.workers[w].run.job;
    ChunkBounds(job.req.size, c.block, job.i);
    assert JobFits(c, s, job);
    if RunningAt(s, w, Started) { AcquireNeverWaits(c, s, w); }
    if RunningAt(s, w, Holding) || RunningAt(s, w, Filled) { assert HoldsChunk(s, w, s.workers[w].run.chunk); }
  }

  /** Free and held chunks partition the pool, and a worker holds at most one. */
  lemma ChunksPartitioned(c: Config, m: Memory, s: State, k: nat)
    requires Reachable(c, m, s) && k < |s.chunks|
    ensures k in s.free <==> !exists w :: HoldsChunk(s, w, k)
    ensures forall w: nat, v: nat :: HoldsChunk(s, w, k) && HoldsChunk(s, v, k) ==> w == v
    ensures NoRepeat(s.free)
  {
    var h := ReachableInv(c, m, s);
    assert Available(s, k);
  }

  // ---------------------------------------------------------------- round robin

  const INT_MIN := -0x8000_0000
  const INT_SPAN := 0x1_0000_0000

  /** The value of the 32-bit counter after `n` increments from zero. */
  function Counter(n: nat): int { (n - INT_MIN) % INT_SPAN + INT_MIN }

  /** The remainder as the program computes it, with the sign of the dividend. */
  function Remainder(a: int, n: nat): int
    requires n > 0
  {
    if a >= 0 then a % n else -((-a) % n)
  }

  /** The index chosen for the n-th callback is a worker's unless the wrapped counter
      is negative and not a multiple of the number of workers. */
  lemma RoundRobinIndex(n: nat, workers: nat)
    requires 0 < workers < -INT_MIN
    ensures 0 <= Remainder(Counter(n), workers) < workers <==> Counter(n) >= 0 || (-Counter(n)) % workers == 0
    ensures n < -INT_MIN ==> Counter(n) == n && Remainder(Counter(n), workers) == n % workers
  {
  }

  /** The first callback past 2^31 with three workers gets a negative index. */
  lemma RoundRobinWraps()
    ensures Counter(-INT_MIN) == INT_MIN && Remainder(Counter(-INT_MIN), 3) == -2
  {
  }
}
