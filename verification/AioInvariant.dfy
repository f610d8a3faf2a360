/**
 * What every step of the I/O machine keeps.
 *
 * The history `h` names the place of each callback of the request being served, the
 * memory as it was before that request, and the place of each accepted request.
 */
module AioInvariant {
  import opened Basics
  import opened Bytes
  import opened Chunks
  import opened AioModel

  datatype Place = Waiting | Queued(w: nat) | OnWorker(w: nat) | Finished
  datatype Where = InHigh | InLow | Serving | Served

  datatype History = History(place: seq<Place>, base: Memory, start: Memory, whereIs: seq<Where>)

  predicate Busy(s: State) { s.sched.Dispatching? || s.sched.Draining? }

  function Current(s: State): Request
    requires Busy(s)
  {
    s.sched.req
  }

  // ---------------------------------------------------------------- callbacks and workers

  ghost predicate JobAt(s: State, h: History, job: Job, p: Place) {
    Busy(s) && job.req == Current(s) && job.i < |h.place| && h.place[job.i] == p
  }

  ghost predicate IdleWorker(x: Worker) { x.queue == [] && x.run.Off? }

  /** Pending counts queued plus running, and every callback it has belongs to the current request. */
  ghost predicate WorkerOk(s: State, h: History, w: nat)
    requires w < |s.workers|
  {
    var x := s.workers[w];
    && x.pending == |x.queue| + (if x.run.Off? then 0 else 1)
    && (forall n :: 0 <= n < |x.queue| ==> JobAt(s, h, x.queue[n], Queued(w)))
    && NoRepeat(x.queue)
    && (x.run.Running? ==> JobAt(s, h, x.run.job, OnWorker(w)))
  }

  /** A callback really is where the history says. */
  ghost predicate JobOk(s: State, h: History, i: nat)
    requires i < |h.place| && Busy(s)
  {
    match h.place[i]
    case Waiting => true
    case Queued(w) => w < |s.workers| && Job(Current(s), i) in s.workers[w].queue
    case OnWorker(w) => w < |s.workers| && s.workers[w].run.Running? && s.workers[w].run.job == Job(Current(s), i)
    case Finished => true
  }

  ghost predicate SchedOk(c: Config, s: State, h: History)
    requires c.block > 0
  {
    match s.sched
    case AtWait => true
    case HighEmpty => s.low != []
    case Dispatching(r, k) =>
      && k <= Count(c, r) == |h.place|
      && (forall i :: 0 <= i < |h.place| ==> (h.place[i] == Waiting <==> k <= i))
    case Draining(r, w) =>
      && |h.place| == Count(c, r) && w <= |s.workers|
      && (forall i :: 0 <= i < |h.place| ==> h.place[i] != Waiting)
      && (forall v :: 0 <= v < w ==> IdleWorker(s.workers[v]))
  }

  ghost predicate WorkersOk(s: State, h: History) {
    forall w :: 0 <= w < |s.workers| ==> WorkerOk(s, h, w)
  }

  ghost predicate JobsOk(s: State, h: History) {
    Busy(s) ==> forall i :: 0 <= i < |h.place| ==> JobOk(s, h, i)
  }

  ghost predicate FlowOk(c: Config, s: State, h: History) {
    Sized(c, s) && SchedOk(c, s, h) && WorkersOk(s, h) && JobsOk(s, h)
  }

  // ---------------------------------------------------------------- the pinned pool

  ghost predicate HoldsChunk(s: State, w: nat, k: nat) {
    && w < |s.workers| && s.workers[w].run.Running? && s.workers[w].run.chunk == k
    && (s.workers[w].run.phase.Holding? || s.workers[w].run.phase.Filled? || s.workers[w].run.phase.Moved?)
  }

  ghost predicate Available(s: State, k: nat) {
    k in s.free || exists w :: HoldsChunk(s, w, k)
  }

  /** Free and held chunks partition all chunks. */
  ghost predicate PoolOk(c: Config, s: State)
    requires Sized(c, s)
  {
    && (forall n :: 0 <= n < |s.free| ==> s.free[n] < |s.chunks|)
    && NoRepeat(s.free)
    && (forall w: nat, k: nat :: HoldsChunk(s, w, k) ==> k < |s.chunks| && k !in s.free)
    && (forall w: nat, v: nat, k: nat :: HoldsChunk(s, w, k) && HoldsChunk(s, v, k) ==> w == v)
    && (forall k :: 0 <= k < |s.chunks| ==> Available(s, k))
  }

  // ---------------------------------------------------------------- requests

  ghost predicate QueueOk(s: State, h: History, q: seq<Request>, p: Where) {
    && (forall n :: 0 <= n < |q| ==> q[n].id < |h.whereIs| && h.whereIs[q[n].id] == p && HasBuffer(s.files, s.buffers, q[n]))
    && (forall n, m :: 0 <= n < m < |q| ==> q[n].id != q[m].id)
  }

  ghost predicate RequestsOk(s: State, h: History) {
    && |h.whereIs| == s.nextId
    && QueueOk(s, h, s.high, InHigh) && QueueOk(s, h, s.low, InLow)
    && (Busy(s) ==>
          Current(s).id < |h.whereIs| && h.whereIs[Current(s).id] == Serving && Fits(s.files, s.buffers, Current(s)))
    && (forall n :: 0 <= n < |s.done| ==> s.done[n].id < |h.whereIs| && h.whereIs[s.done[n].id] == Served)
  }

  /** How often a callback should have run by now. */
  ghost function Runs(c: Config, s: State, h: History, job: Job): nat
    requires c.block > 0
  {
    if Busy(s) && job.req == Current(s) then
      (if job.i < |h.place| && h.place[job.i] == Finished then 1 else 0)
    else if job.req in s.done && job.i < Count(c, job.req) then 1
    else 0
  }

  ghost predicate RanOk(c: Config, s: State, h: History)
    requires c.block > 0
  {
    forall job :: s.ran[job] == Runs(c, s, h, job)
  }

  // ---------------------------------------------------------------- bytes

  /** The callback's bytes have reached the file or the caller's buffer. */
  ghost predicate Applied(s: State, p: Place) {
    p.Finished? || (p.OnWorker? && (RunningAt(s, p.w, Moved) || RunningAt(s, p.w, Released)))
  }

  ghost predicate AppliedChunk(c: Config, s: State, h: History, i: nat, q: int)
    requires c.block > 0 && Busy(s)
  {
    i < |h.place| && Applied(s, h.place[i]) && InChunk(Current(s).size, c.block, i, q)
  }

  ghost predicate Covered(c: Config, s: State, h: History, q: int)
    requires c.block > 0 && Busy(s)
  {
    exists i :: AppliedChunk(c, s, h, i, q)
  }

  ghost function Padded(h: History, r: Request): seq<byte>
    requires Fits(h.base.files, h.base.buffers, r)
  {
    Pad(h.base.buffers[r.buf][..r.size])
  }

  /** The file while a write is under way: written where covered, else as before. */
  ghost predicate WriteProgress(c: Config, s: State, h: History, r: Request)
    requires c.block > 0 && Busy(s) && r == Current(s)
  {
    && s.buffers == h.base.buffers
    && |s.files| == |h.base.files| && Fits(h.base.files, h.base.buffers, r)
    && (forall f :: 0 <= f < |s.files| && f != r.file ==> s.files[f] == h.base.files[f])
    && var now, was := s.files[r.file], h.base.files[r.file];
       && |was| <= |now| <= (if r.size == 0 then |was| else Max(|was|, r.offset + Align(r.size)))
       && (forall q :: Covered(c, s, h, q) ==> 0 <= q < Align(r.size) && r.offset + q < |now|)
       && (forall p :: 0 <= p < |now| ==>
             if Covered(c, s, h, p - r.offset) then 0 <= p - r.offset < Align(r.size) && now[p] == Padded(h, r)[p - r.offset]
             else now[p] == if p < |was| then was[p] else 0)
  }

  /** The caller's buffer while a read is under way. */
  ghost predicate ReadProgress(c: Config, s: State, h: History, r: Request)
    requires c.block > 0 && Busy(s) && r == Current(s) && !r.write
  {
    && s.files == h.base.files
    && |s.buffers| == |h.base.buffers| && Fits(h.base.files, h.base.buffers, r)
    && (forall b :: 0 <= b < |s.buffers| && b != r.buf ==> s.buffers[b] == h.base.buffers[b])
    && var now, was := s.buffers[r.buf], h.base.buffers[r.buf];
       && |now| == |was|
       && (forall p :: 0 <= p < |now| ==>
             now[p] == if p < r.size && Covered(c, s, h, p) then s.files[r.file][r.offset + p] else was[p])
  }

  /** What a filled chunk holds. */
  ghost predicate ChunkContent(c: Config, s: State, h: History, w: nat)
    requires Sized(c, s) && Busy(s) && RunningAt(s, w, Filled)
  {
    var r, k, job := Current(s), s.workers[w].run.chunk, s.workers[w].run.job;
    && k < |s.chunks| && job.i < Count(c, job.req) && job.req == r && Fits(h.base.files, h.base.buffers, r)
    && var p := Piece(c, job);
       if r.write then
         && p.byteCount <= c.block && p.shift + p.byteCount <= Align(r.size)
         && forall q :: 0 <= q < p.byteCount ==> s.chunks[k][q] == Padded(h, r)[p.shift + q]
       else
         && p.copyCount <= c.block && p.shift + p.copyCount <= Max(r.size, p.shift)
         && (p.copyCount > 0 ==> r.offset + p.shift + p.copyCount <= |h.base.files[r.file]|)
         && forall q :: 0 <= q < p.copyCount ==> s.chunks[k][q] == h.base.files[r.file][r.offset + p.shift + q]
  }

  ghost predicate ContentsOk(c: Config, s: State, h: History)
    requires Sized(c, s)
  {
    forall w: nat :: RunningAt(s, w, Filled) ==> Busy(s) && ChunkContent(c, s, h, w)
  }

  ghost predicate ProgressOk(c: Config, s: State, h: History)
    requires c.block > 0
  {
    if !Busy(s) then s.files == h.base.files && s.buffers == h.base.buffers
    else if Current(s).write then WriteProgress(c, s, h, Current(s))
    else ReadProgress(c, s, h, Current(s))
  }

  /** Before the current request, memory is what serving the completed ones in order gives. */
  ghost predicate BaseOk(s: State, h: History) {
    AllFit(h.start, s.done) && h.base == ServeAll(h.start, s.done)
  }

  ghost predicate MemoryOk(c: Config, s: State, h: History)
    requires Sized(c, s)
  {
    ProgressOk(c, s, h) && ContentsOk(c, s, h) && BaseOk(s, h)
  }

  // ---------------------------------------------------------------- the log

  function Arrivals(log: seq<Event>, high: bool): seq<Request> {
    if log == [] then [] else
      var e := log[|log| - 1];
      Arrivals(log[..|log| - 1], high) + (if e.Accepted? && e.high == high then [e.req] else [])
  }

  function Departures(log: seq<Event>, high: bool): seq<Request> {
    if log == [] then [] else
      var e := log[|log| - 1];
      Departures(log[..|log| - 1], high) + (if e.Taken? && e.high == high then [e.req] else [])
  }

  function AllDepartures(log: seq<Event>): seq<Request> {
    if log == [] then [] else
      var e := log[|log| - 1];
      AllDepartures(log[..|log| - 1]) + (if e.Taken? then [e.req] else [])
  }

  /** How many low-priority requests were taken in a stretch of the log. */
  function LowTaken(log: seq<Event>): nat {
    if log == [] then 0 else
      LowTaken(log[..|log| - 1]) + (if log[|log| - 1].Taken? && !log[|log| - 1].high then 1 else 0)
  }

  /** While a high request waits, at most one low request is taken: the one already chosen
      when the high queue was seen empty. */
  ghost predicate WaitBounded(s: State, a: nat)
    requires a < |s.log| && s.log[a].Accepted? && s.log[a].high
  {
    && (s.log[a].req in s.high || Taken(s.log[a].req, true) in s.log[a..])
    && (Taken(s.log[a].req, true) !in s.log[a..] ==> LowTaken(s.log[a..]) + (if s.sched.HighEmpty? then 1 else 0) <= 1)
  }

  ghost predicate InversionBounded(log: seq<Event>, a: nat, b: nat)
    requires a < b <= |log| && log[a].Accepted? && log[a].high
  {
    Taken(log[a].req, true) !in log[a..b] ==> LowTaken(log[a..b]) <= 1
  }

  ghost predicate LogOk(s: State) {
    && Arrivals(s.log, true) == Departures(s.log, true) + s.high
    && Arrivals(s.log, false) == Departures(s.log, false) + s.low
    && AllDepartures(s.log) == s.done + (if Busy(s) then [Current(s)] else [])
    && (forall a :: 0 <= a < |s.log| && s.log[a].Accepted? && s.log[a].high ==> WaitBounded(s, a))
    && (forall a, b :: 0 <= a < b <= |s.log| && s.log[a].Accepted? && s.log[a].high ==> InversionBounded(s.log, a, b))
  }

  ghost predicate Inv(c: Config, s: State, h: History) {
    && FlowOk(c, s, h) && PoolOk(c, s) && RequestsOk(s, h) && RanOk(c, s, h) && MemoryOk(c, s, h) && LogOk(s)
  }

  // ---------------------------------------------------------------- history of a step

  ghost function SetPlace(h: History, i: nat, p: Place): History
    requires i < |h.place|
  {
    h.(place := h.place[i := p])
  }

  ghost function SetWhere(h: History, id: nat, p: Where): History
    requires id < |h.whereIs|
  {
    h.(whereIs := h.whereIs[id := p])
  }

  ghost function AfterTake(c: Config, h: History, r: Request): History
    requires c.block > 0 && r.id < |h.whereIs|
  {
    SetWhere(h, r.id, Serving).(place := seq(Count(c, r), _ => Waiting))
  }
}
