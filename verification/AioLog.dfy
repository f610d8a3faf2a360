/** Requests: where each one is, how often its callbacks ran, and the order of service. */
module AioLog {
  import opened Chunks
  import opened AioModel
  import opened AioInvariant
  import opened AioFlow

  // ---------------------------------------------------------------- requests

  /** Files never shrink, so a request that fits keeps fitting. */
  lemma RequestsFrame(s: State, h: History, t: State, k: History)
    requires RequestsOk(s, h) && k.whereIs == h.whereIs && t.nextId == s.nextId
    requires t.high == s.high && t.low == s.low && t.done == s.done
    requires Busy(t) ==> Busy(s) && Current(t) == Current(s)
    requires |t.files| == |s.files| && |t.buffers| == |s.buffers|
    requires forall f :: 0 <= f < |s.files| ==> |s.files[f]| <= |t.files[f]|
    requires forall b :: 0 <= b < |s.buffers| ==> |s.buffers[b]| == |t.buffers[b]|
    ensures RequestsOk(t, k)
  {
  }

  lemma RequestsAccept(s: State, h: History, r: Request, high: bool)
    requires RequestsOk(s, h) && CanAccept(s, r)
    ensures RequestsOk(DoAccept(s, r, high), h.(whereIs := h.whereIs + [if high then InHigh else InLow]))
  {
    var t, p := DoAccept(s, r, high), if high then InHigh else InLow;
    var k := h.(whereIs := h.whereIs + [p]);
    QueueKept(s, h, t, k, s.high, InHigh);
    QueueKept(s, h, t, k, s.low, InLow);
    QueueJoined(t, k, if high then s.high else s.low, p, r);
  }

  lemma QueueKept(s: State, h: History, t: State, k: History, q: seq<Request>, p: Where)
    requires QueueOk(s, h, q, p) && t.files == s.files && t.buffers == s.buffers && h.whereIs <= k.whereIs
    ensures QueueOk(t, k, q, p) && forall n :: 0 <= n < |q| ==> q[n].id < |h.whereIs|
  {
  }

  lemma QueueJoined(t: State, k: History, q: seq<Request>, p: Where, r: Request)
    requires QueueOk(t, k, q, p) && r.id < |k.whereIs| && k.whereIs[r.id] == p && HasBuffer(t.files, t.buffers, r)
    requires forall n :: 0 <= n < |q| ==> q[n].id != r.id
    ensures QueueOk(t, k, q + [r], p)
  {
  }

  lemma RequestsTakeHigh(c: Config, s: State, h: History)
    requires c.block > 0 && RequestsOk(s, h) && CanTakeHigh(s)
    ensures RequestsOk(DoTakeHigh(s), AfterTake(c, h, s.high[0]))
  {
  }

  lemma RequestsTakeLow(c: Config, s: State, h: History)
    requires c.block > 0 && RequestsOk(s, h) && CanTakeLow(s)
    ensures RequestsOk(DoTakeLow(s), AfterTake(c, h, s.low[0]))
  {
  }

  lemma RequestsComplete(c: Config, s: State, h: History, k: History)
    requires RequestsOk(s, h) && CanComplete(c, s) && Current(s).id < |h.whereIs|
    requires k.whereIs == SetWhere(h, Current(s).id, Served).whereIs
    ensures RequestsOk(DoComplete(s), k)
  {
  }

  lemma MoveGrows(c: Config, s: State, w: nat)
    requires Sized(c, s) && CanMove(c, s, w)
    ensures var t := DoMove(c, s, w); |t.files| == |s.files| && |t.buffers| == |s.buffers|
    ensures forall f :: 0 <= f < |s.files| ==> |s.files[f]| <= |DoMove(c, s, w).files[f]|
    ensures forall b :: 0 <= b < |s.buffers| ==> |s.buffers[b]| == |DoMove(c, s, w).buffers[b]|
  {
    var job := s.workers[w].run.job;
    ChunkBounds(job.req.size, c.block, job.i);
  }

  // ---------------------------------------------------------------- every callback once

  lemma RanFrame(c: Config, s: State, h: History, t: State, k: History)
    requires c.block > 0 && RanOk(c, s, h) && t.ran == s.ran && t.done == s.done && |k.place| == |h.place|
    requires Busy(s) <==> Busy(t)
    requires Busy(s) ==> Current(s) == Current(t)
    requires forall i :: 0 <= i < |h.place| ==> (h.place[i] == Finished <==> k.place[i] == Finished)
    ensures RanOk(c, t, k)
  {
    forall job ensures t.ran[job] == Runs(c, t, k, job) {
      assert s.ran[job] == Runs(c, s, h, job);
    }
  }

  lemma RanFinish(c: Config, s: State, h: History, w: nat)
    requires FlowOk(c, s, h) && RanOk(c, s, h) && CanFinish(s, w)
    ensures Busy(s) && s.workers[w].run.job.i < |h.place|
    ensures RanOk(c, DoFinish(s, w), SetPlace(h, s.workers[w].run.job.i, Finished))
  {
    assert WorkerOk(s, h, w);
    var t, k := DoFinish(s, w), SetPlace(h, s.workers[w].run.job.i, Finished);
    forall job ensures t.ran[job] == Runs(c, t, k, job) {
      assert s.ran[job] == Runs(c, s, h, job);
    }
  }

  lemma RanTake(c: Config, s: State, h: History, t: State, k: History, r: Request)
    requires c.block > 0 && RanOk(c, s, h) && !Busy(s) && t.sched == Dispatching(r, 0)
    requires t.ran == s.ran && t.done == s.done && r !in s.done
    requires k.place == seq(Count(c, r), _ => Waiting)
    ensures RanOk(c, t, k)
  {
    forall job ensures t.ran[job] == Runs(c, t, k, job) {
      assert s.ran[job] == Runs(c, s, h, job);
    }
  }

  lemma RanComplete(c: Config, s: State, h: History, k: History)
    requires FlowOk(c, s, h) && RanOk(c, s, h) && CanComplete(c, s)
    ensures RanOk(c, DoComplete(s), k)
  {
    AllFinished(c, s, h);
    var t := DoComplete(s);
    forall job ensures t.ran[job] == Runs(c, t, k, job) {
      assert s.ran[job] == Runs(c, s, h, job);
    }
  }

  // ---------------------------------------------------------------- order of service

  lemma LogSnoc(log: seq<Event>, e: Event)
    ensures Arrivals(log + [e], true) == Arrivals(log, true) + (if e.Accepted? && e.high then [e.req] else [])
    ensures Arrivals(log + [e], false) == Arrivals(log, false) + (if e.Accepted? && !e.high then [e.req] else [])
    ensures Departures(log + [e], true) == Departures(log, true) + (if e.Taken? && e.high then [e.req] else [])
    ensures Departures(log + [e], false) == Departures(log, false) + (if e.Taken? && !e.high then [e.req] else [])
    ensures AllDepartures(log + [e]) == AllDepartures(log) + (if e.Taken? then [e.req] else [])
    ensures LowTaken(log + [e]) == LowTaken(log) + (if e.Taken? && !e.high then 1 else 0)
  {
    assert (log + [e])[..|log|] == log;
  }

  /** One more event: old stretches are unchanged, stretches to the end grow by it. */
  lemma StretchSnoc(s: State, t: State, e: Event, a: nat)
    requires LogOk(s) && t.log == s.log + [e] && a < |s.log| && s.log[a].Accepted? && s.log[a].high
    requires e == Taken(s.log[a].req, true) || s.log[a].req in t.high || s.log[a].req !in s.high
    requires e.Taken? && !e.high ==> s.sched.HighEmpty? && !t.sched.HighEmpty?
    requires !(e.Taken? && !e.high) ==> (t.sched.HighEmpty? ==> s.sched.HighEmpty?)
    ensures WaitBounded(t, a)
  {
    assert WaitBounded(s, a);
    assert t.log[a..] == s.log[a..] + [e];
    LogSnoc(s.log[a..], e);
  }

  lemma InversionsKept(s: State, t: State, e: Event)
    requires LogOk(s) && t.log == s.log + [e]
    requires forall a :: 0 <= a < |t.log| && t.log[a].Accepted? && t.log[a].high ==> WaitBounded(t, a)
    ensures forall a, b :: 0 <= a < b <= |t.log| && t.log[a].Accepted? && t.log[a].high ==> InversionBounded(t.log, a, b)
  {
    forall a, b | 0 <= a < b <= |t.log| && t.log[a].Accepted? && t.log[a].high ensures InversionBounded(t.log, a, b) {
      if b == |t.log| {
        assert WaitBounded(t, a);
        assert t.log[a..b] == t.log[a..];
      } else {
        assert InversionBounded(s.log, a, b);
        assert t.log[a..b] == s.log[a..b];
      }
    }
  }

  lemma AcceptLists(s: State, r: Request, high: bool)
    requires LogOk(s)
    ensures var t := DoAccept(s, r, high);
            && Arrivals(t.log, true) == Departures(t.log, true) + t.high
            && Arrivals(t.log, false) == Departures(t.log, false) + t.low
            && AllDepartures(t.log) == t.done + (if Busy(t) then [Current(t)] else [])
  {
    LogSnoc(s.log, Accepted(r, high));
  }

  lemma AcceptWaits(s: State, r: Request, high: bool, a: nat)
    requires LogOk(s) && CanAccept(s, r)
    requires var t := DoAccept(s, r, high); a < |t.log| && t.log[a].Accepted? && t.log[a].high
    ensures WaitBounded(DoAccept(s, r, high), a)
  {
    if a < |s.log| { StretchSnoc(s, DoAccept(s, r, high), Accepted(r, high), a); } else { NewWait(s, r); }
  }

  lemma LogAccept(s: State, r: Request, high: bool)
    requires LogOk(s) && CanAccept(s, r)
    ensures LogOk(DoAccept(s, r, high))
  {
    var t, e := DoAccept(s, r, high), Accepted(r, high);
    AcceptLists(s, r, high);
    forall a | 0 <= a < |t.log| && t.log[a].Accepted? && t.log[a].high ensures WaitBounded(t, a) {
      AcceptWaits(s, r, high, a);
    }
    InversionsKept(s, t, e);
  }

  lemma NewWait(s: State, r: Request)
    requires LogOk(s) && CanAccept(s, r)
    ensures WaitBounded(DoAccept(s, r, true), |s.log|)
  {
    var t, e := DoAccept(s, r, true), Accepted(r, true);
    assert t.log[|s.log|..] == [e] == [] + [e];
    LogSnoc([], e);
  }

  lemma LogTakeHigh(s: State)
    requires LogOk(s) && CanTakeHigh(s)
    ensures LogOk(DoTakeHigh(s))
  {
    var t, e := DoTakeHigh(s), Taken(s.high[0], true);
    LogSnoc(s.log, e);
    assert Departures(s.log, true) + s.high == Departures(s.log, true) + [s.high[0]] + s.high[1..];
    forall a | 0 <= a < |t.log| && t.log[a].Accepted? && t.log[a].high ensures WaitBounded(t, a) {
      assert s.high == [s.high[0]] + s.high[1..];
      StretchSnoc(s, t, e, a);
    }
    InversionsKept(s, t, e);
  }

  lemma LogTakeLow(s: State)
    requires LogOk(s) && CanTakeLow(s)
    ensures LogOk(DoTakeLow(s))
  {
    var t, e := DoTakeLow(s), Taken(s.low[0], false);
    LogSnoc(s.log, e);
    assert Departures(s.log, false) + s.low == Departures(s.log, false) + [s.low[0]] + s.low[1..];
    forall a | 0 <= a < |t.log| && t.log[a].Accepted? && t.log[a].high ensures WaitBounded(t, a) {
      StretchSnoc(s, t, e, a);
    }
    InversionsKept(s, t, e);
  }

  lemma LogSkipHigh(s: State)
    requires LogOk(s) && CanSkipHigh(s)
    ensures LogOk(DoSkipHigh(s))
  {
    var t := DoSkipHigh(s);
    forall a | 0 <= a < |t.log| && t.log[a].Accepted? && t.log[a].high ensures WaitBounded(t, a) {
      assert WaitBounded(s, a);
    }
  }

  lemma LogFrame(s: State, t: State)
    requires LogOk(s) && t.log == s.log && t.high == s.high && t.low == s.low
    requires t.sched.HighEmpty? <==> s.sched.HighEmpty?
    requires t.done + (if Busy(t) then [Current(t)] else []) == s.done + (if Busy(s) then [Current(s)] else [])
    ensures LogOk(t)
  {
    forall a | 0 <= a < |t.log| && t.log[a].Accepted? && t.log[a].high ensures WaitBounded(t, a) {
      assert WaitBounded(s, a);
    }
  }
}
