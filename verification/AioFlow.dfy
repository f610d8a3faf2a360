/** Callbacks, pending counters and pinned chunks: every step keeps them in order. */
module AioFlow {
  import opened AioModel
  import opened AioInvariant
  import opened Basics

  // ---------------------------------------------------------------- the scheduler's steps

  lemma FlowTake(c: Config, s: State, h: History, t: State, k: History, r: Request)
    requires FlowOk(c, s, h) && !Busy(s)
    requires t.workers == s.workers && t.sched == Dispatching(r, 0) && Sized(c, t)
    requires k.place == seq(Count(c, r), _ => Waiting)
    ensures FlowOk(c, t, k)
  {
    forall w | 0 <= w < |t.workers| ensures WorkerOk(t, k, w) {
      assert WorkerOk(s, h, w);
    }
  }

  lemma FlowDispatch(c: Config, s: State, h: History, w: nat)
    requires FlowOk(c, s, h) && CanDispatch(c, s, w)
    ensures FlowOk(c, DoDispatch(c, s, w), SetPlace(h, s.sched.k, Queued(w)))
  {
    var t, k := DoDispatch(c, s, w), SetPlace(h, s.sched.k, Queued(w));
    forall v | 0 <= v < |t.workers| ensures WorkerOk(t, k, v) {
      assert WorkerOk(s, h, v);
    }
    forall i | 0 <= i < |k.place| ensures JobOk(t, k, i) {
      assert JobOk(s, h, i);
    }
  }

  lemma FlowStartDrain(c: Config, s: State, h: History)
    requires FlowOk(c, s, h) && CanStartDrain(c, s)
    ensures FlowOk(c, DoStartDrain(s), h)
  {
    var t := DoStartDrain(s);
    forall v | 0 <= v < |t.workers| ensures WorkerOk(t, h, v) {
      assert WorkerOk(s, h, v);
    }
    forall i | 0 <= i < |h.place| ensures JobOk(t, h, i) {
      assert JobOk(s, h, i);
    }
  }

  /** A worker whose counter is zero has nothing queued, so clearing its list drops nothing. */
  lemma FlowDrain(c: Config, s: State, h: History)
    requires FlowOk(c, s, h) && CanDrain(c, s)
    ensures s.workers[s.sched.w].queue == [] && s.workers[s.sched.w].run.Off?
    ensures FlowOk(c, DoDrain(c, s), h)
  {
    var t := DoDrain(c, s);
    assert WorkerOk(s, h, s.sched.w);
    assert t.workers[s.sched.w] == s.workers[s.sched.w];
    forall v | 0 <= v < |t.workers| ensures WorkerOk(t, h, v) {
      assert WorkerOk(s, h, v);
    }
    forall i | 0 <= i < |h.place| ensures JobOk(t, h, i) {
      assert JobOk(s, h, i);
    }
  }

  /** When every worker has been waited for, every callback has finished. */
  lemma AllFinished(c: Config, s: State, h: History)
    requires FlowOk(c, s, h) && CanComplete(c, s)
    ensures forall i :: 0 <= i < |h.place| ==> h.place[i] == Finished
    ensures forall w :: 0 <= w < |s.workers| ==> IdleWorker(s.workers[w])
  {
    forall i | 0 <= i < |h.place| ensures h.place[i] == Finished {
      assert JobOk(s, h, i);
    }
  }

  lemma FlowComplete(c: Config, s: State, h: History, k: History)
    requires FlowOk(c, s, h) && CanComplete(c, s)
    ensures FlowOk(c, DoComplete(s), k)
  {
    AllFinished(c, s, h);
    var t := DoComplete(s);
    forall v | 0 <= v < |t.workers| ensures WorkerOk(t, k, v) {
      assert WorkerOk(s, h, v);
    }
  }

  // ---------------------------------------------------------------- a worker's steps

  lemma FlowPop(c: Config, s: State, h: History, w: nat)
    requires FlowOk(c, s, h) && CanPop(s, w)
    ensures Busy(s) && s.workers[w].queue[0].i < |h.place|
    ensures FlowOk(c, DoPop(s, w), SetPlace(h, s.workers[w].queue[0].i, OnWorker(w)))
  {
    assert WorkerOk(s, h, w);
    var q := s.workers[w].queue;
    assert JobAt(s, h, q[0], Queued(w));
    var t, k := DoPop(s, w), SetPlace(h, q[0].i, OnWorker(w));
    forall v | 0 <= v < |t.workers| ensures WorkerOk(t, k, v) {
      assert WorkerOk(s, h, v);
    }
    forall i | 0 <= i < |k.place| ensures JobOk(t, k, i) {
      assert JobOk(s, h, i);
    }
  }

  lemma FlowFinish(c: Config, s: State, h: History, w: nat)
    requires FlowOk(c, s, h) && CanFinish(s, w)
    ensures Busy(s) && s.workers[w].run.job.i < |h.place|
    ensures FlowOk(c, DoFinish(s, w), SetPlace(h, s.workers[w].run.job.i, Finished))
  {
    assert WorkerOk(s, h, w);
    var t, k := DoFinish(s, w), SetPlace(h, s.workers[w].run.job.i, Finished);
    forall v | 0 <= v < |t.workers| ensures WorkerOk(t, k, v) {
      assert WorkerOk(s, h, v);
    }
    forall i | 0 <= i < |k.place| ensures JobOk(t, k, i) {
      assert JobOk(s, h, i);
    }
  }

  /** A step inside a callback changes neither its place nor any counter. */
  lemma FlowPhase(c: Config, s: State, h: History, t: State, w: nat)
    requires FlowOk(c, s, h) && Sized(c, t) && w < |s.workers| && s.workers[w].run.Running? && t.workers[w].run.Running?
    requires t.sched == s.sched && t.low == s.low
    requires t.workers == s.workers[w := s.workers[w].(run := t.workers[w].run)]
    requires t.workers[w].run.job == s.workers[w].run.job
    ensures FlowOk(c, t, h)
  {
    forall v | 0 <= v < |t.workers| ensures WorkerOk(t, h, v) {
      assert WorkerOk(s, h, v);
    }
    if Busy(t) {
      forall i | 0 <= i < |h.place| ensures JobOk(t, h, i) {
        assert JobOk(s, h, i);
      }
    }
  }

  /** Steps that leave workers and scheduler alone. */
  lemma FlowFrame(c: Config, s: State, h: History, t: State, k: History)
    requires FlowOk(c, s, h) && Sized(c, t) && t.workers == s.workers && k.place == h.place
    requires t.sched == s.sched || (!Busy(s) && !Busy(t))
    requires t.sched.HighEmpty? ==> t.low != []
    ensures FlowOk(c, t, k)
  {
    forall v | 0 <= v < |t.workers| ensures WorkerOk(t, k, v) {
      assert WorkerOk(s, h, v);
    }
    if Busy(t) {
      forall i | 0 <= i < |k.place| ensures JobOk(t, k, i) {
        assert JobOk(s, h, i);
      }
    }
  }

  // ---------------------------------------------------------------- the pool's steps

  lemma PoolFrame(c: Config, s: State, t: State)
    requires Sized(c, s) && PoolOk(c, s) && Sized(c, t) && t.free == s.free
    requires forall w: nat, k: nat :: HoldsChunk(t, w, k) <==> HoldsChunk(s, w, k)
    ensures PoolOk(c, t)
  {
    forall k | 0 <= k < |t.chunks| ensures Available(t, k) {
      assert Available(s, k);
    }
  }

  lemma PoolAcquire(c: Config, s: State, w: nat)
    requires Sized(c, s) && PoolOk(c, s) && CanAcquire(s, w)
    ensures PoolOk(c, DoAcquire(s, w))
  {
    var t := DoAcquire(s, w);
    assert HoldsChunk(t, w, s.free[0]);
    forall v: nat, k: nat | HoldsChunk(t, v, k) && v != w ensures HoldsChunk(s, v, k) && k != s.free[0] {
      assert HoldsChunk(s, v, k);
      assert s.free[0] in s.free;
    }
    forall k | 0 <= k < |t.chunks| ensures Available(t, k) {
      assert Available(s, k);
      if k !in s.free {
        var v :| HoldsChunk(s, v, k);
        assert HoldsChunk(t, v, k);
      }
    }
  }

  lemma PoolRelease(c: Config, s: State, w: nat)
    requires Sized(c, s) && PoolOk(c, s) && CanRelease(s, w)
    ensures PoolOk(c, DoRelease(s, w))
  {
    var t := DoRelease(s, w);
    var mine := s.workers[w].run.chunk;
    assert HoldsChunk(s, w, mine);
    forall v: nat, k: nat | HoldsChunk(t, v, k) ensures HoldsChunk(s, v, k) && k != mine {
      assert HoldsChunk(s, v, k);
    }
    forall k | 0 <= k < |t.chunks| ensures Available(t, k) {
      assert Available(s, k);
      if k !in t.free {
        var v :| HoldsChunk(s, v, k);
        assert HoldsChunk(t, v, k);
      }
    }
  }

  ghost function Below(n: nat): (a: set<nat>)
    ensures |a| == n && forall x: nat :: x in a <==> x < n
  {
    if n == 0 then {} else assert Below(n - 1) * {n - 1} == {}; Below(n - 1) + {n - 1}
  }

  /** Chunks held by the first `n` workers. */
  ghost function Held(s: State, n: nat): (a: set<nat>)
    requires n <= |s.workers|
    ensures |a| <= n
    ensures forall w: nat, k: nat :: w < n && HoldsChunk(s, w, k) ==> k in a
  {
    if n == 0 then {} else
      if HoldsChunk(s, n - 1, if s.workers[n - 1].run.Running? then s.workers[n - 1].run.chunk else 0)
      then Held(s, n - 1) + {s.workers[n - 1].run.chunk}
      else Held(s, n - 1)
  }

  /** A callback that wants a chunk always finds one: workers hold at most one each
      and the pool has four per worker. */
  lemma AcquireNeverWaits(c: Config, s: State, w: nat)
    requires Sized(c, s) && PoolOk(c, s) && RunningAt(s, w, Started)
    ensures s.free != []
  {
    if s.free == [] {
      var held := Held(s, |s.workers|);
      forall k | k in Below(|s.chunks|) ensures k in held {
        assert Available(s, k);
      }
      SubsetSize(Below(|s.chunks|), held);
      assert false;
    }
  }
}
