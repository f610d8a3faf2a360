/** Every step of the dispatcher keeps the control part of the invariant. */
module DispatcherSteps {
  import opened DispatcherModel
  import opened DispatcherInvariant

  lemma KeepBegin(c: Config, s: State, h: History, x: Inputs, plan: set<nat>)
    requires Control(c, s, h) && CanBegin(c, s, x, plan)
    ensures Control(c, DoBegin(c, s, x, plan), h)
  {
    var t := DoBegin(c, s, x, plan);
    forall e | 0 <= e < |c.nodes| ensures h.place[e] == Nowhere {
      assert e !in Active(h);
    }
    forall i | 0 <= i < c.gpus ensures GpuOk(c, t, h, i) {
      assert GpuOk(c, s, h, i);
    }
    forall i | 0 <= i < |t.threads| ensures ThreadOk(c, t, h, i) {
      assert ThreadOk(c, s, h, i);
    }
    forall i | 0 <= i < |c.nodes| ensures ExpertOk(c, t, h, i) {
      assert ExpertOk(c, s, h, i);
    }
  }

  ghost function EnqueuePlace(s: State, e: nat, g: nat): Place
    requires e < |s.experts|
  {
    if s.experts[e].device.Cuda? then InExec(s.experts[e].device.gpu) else InInput(g)
  }

  lemma EnqueueGpuHit(c: Config, s: State, h: History, e: nat, g: nat, i: nat)
    requires Shaped(c, s, h) && CanEnqueue(c, s, e, g) && NotSelected(s, e) && i < c.gpus
    requires ExpertOk(c, s, h, e) && h.place[e] == Nowhere && GpuOk(c, s, h, i) && s.experts[e].device.Cuda?
    ensures GpuOk(c, DoEnqueue(c, s, e, g), Move(h, e, EnqueuePlace(s, e, g)), i)
  {
    var u := s.gpus[i];
    var p := EnqueuePlace(s, e, g);
    ExecQueueFrame(c, h, e, p, i, u.execQ, u.cached);
    InputQueueFrame(c, h, e, p, i, u.inputQ);
    if p == InExec(i) { ExecQueuePush(c, h, i, u.execQ, ExecArgs(e, false), u.cached); }
  }

  lemma EnqueueGpuMiss(c: Config, s: State, h: History, e: nat, g: nat, i: nat)
    requires Shaped(c, s, h) && CanEnqueue(c, s, e, g) && NotSelected(s, e) && i < c.gpus
    requires ExpertOk(c, s, h, e) && h.place[e] == Nowhere && GpuOk(c, s, h, i) && s.experts[e].device.Host?
    ensures GpuOk(c, DoEnqueue(c, s, e, g), Move(h, e, EnqueuePlace(s, e, g)), i)
  {
    var u := s.gpus[i];
    ExecQueueFrame(c, h, e, InInput(g), i, u.execQ, u.cached);
    InputQueueFrame(c, h, e, InInput(g), i, u.inputQ);
    if i == g { InputQueuePush(c, h, i, u.inputQ, e); }
  }

  lemma EnqueueExpert(c: Config, s: State, h: History, e: nat, g: nat, i: nat)
    requires Shaped(c, s, h) && CanEnqueue(c, s, e, g) && i < |c.nodes|
    requires ExpertOk(c, s, h, e) && h.place[e] == Nowhere && ExpertOk(c, s, h, i)
    ensures ExpertOk(c, DoEnqueue(c, s, e, g), Move(h, e, EnqueuePlace(s, e, g)), i)
  {
    if s.experts[e].device.Cuda? {
      QueuedAppend(s.gpus[s.experts[e].device.gpu].execQ, ExecArgs(e, false));
    }
  }

  lemma EnqueueThreads(c: Config, s: State, h: History, e: nat, g: nat)
    requires Shaped(c, s, h) && ThreadsOk(c, s, h) && CanEnqueue(c, s, e, g) && h.place[e] == Nowhere
    ensures ThreadsOk(c, DoEnqueue(c, s, e, g), Move(h, e, EnqueuePlace(s, e, g)))
  {
    var t, k := DoEnqueue(c, s, e, g), Move(h, e, EnqueuePlace(s, e, g));
    forall i | 0 <= i < |t.threads| ensures ThreadOk(c, t, k, i) {
      assert ThreadOk(c, s, h, i);
    }
  }

  lemma EnqueueBarrier(c: Config, s: State, h: History, e: nat, g: nat)
    requires Shaped(c, s, h) && BarrierOk(c, s, h) && CanEnqueue(c, s, e, g) && s.experts[e].exec == Idle
    ensures h.place[e] == Nowhere
    ensures BarrierOk(c, DoEnqueue(c, s, e, g), Move(h, e, EnqueuePlace(s, e, g)))
  {
    assert e !in Active(h);
    ActiveGains(h, e, EnqueuePlace(s, e, g));
    EnqueueClient(c, s, e, g);
  }

  lemma ActiveGains(h: History, e: nat, p: Place)
    requires e < |h.place| && h.place[e] == Nowhere && p != Nowhere
    ensures Active(Move(h, e, p)) == Active(h) + {e} && |Active(Move(h, e, p))| == |Active(h)| + 1
  {
    assert Active(Move(h, e, p)) == Active(h) + {e};
  }

  lemma EnqueueClient(c: Config, s: State, e: nat, g: nat)
    requires Sized(c, s) && CanEnqueue(c, s, e, g) && s.experts[e].exec == Idle
    ensures var t := DoEnqueue(c, s, e, g);
            && t.inputs == s.inputs && t.pending == s.pending
            && t.client == InRound(s.client.plan, s.client.todo - {e}) && |s.client.todo - {e}| == |s.client.todo| - 1
  {
  }

  lemma KeepEnqueue(c: Config, s: State, h: History, e: nat, g: nat)
    requires Control(c, s, h) && CanEnqueue(c, s, e, g) && NotSelected(s, e)
    ensures Control(c, DoEnqueue(c, s, e, g), Move(h, e, EnqueuePlace(s, e, g)))
  {
    var t, k := DoEnqueue(c, s, e, g), Move(h, e, EnqueuePlace(s, e, g));
    assert ExpertOk(c, s, h, e);
    assert e !in Active(h);
    EnqueueBarrier(c, s, h, e, g);
    EnqueueThreads(c, s, h, e, g);
    forall i | 0 <= i < c.gpus ensures GpuOk(c, t, k, i) {
      if s.experts[e].device.Cuda? { EnqueueGpuHit(c, s, h, e, g, i); } else { EnqueueGpuMiss(c, s, h, e, g, i); }
    }
    forall i | 0 <= i < |c.nodes| ensures ExpertOk(c, t, k, i) {
      EnqueueExpert(c, s, h, e, g, i);
    }
  }

  lemma KeepPop(c: Config, s: State, h: History, g: nat)
    requires Control(c, s, h) && CanPop(c, s, g)
    ensures Control(c, DoPop(c, s, g), Move(h, s.gpus[g].inputQ[0], AtFetch(g)))
  {
    var t := DoPop(c, s, g);
    assert GpuOk(c, s, h, g);
    var e := s.gpus[g].inputQ[0];
    assert PlacedAt(c, h, e, InInput(g));
    assert ExpertOk(c, s, h, e);
    var k := Move(h, s.gpus[g].inputQ[0], AtFetch(g));
    forall i | 0 <= i < c.gpus ensures GpuOk(c, t, k, i) {
      assert GpuOk(c, s, h, i);
    }
    forall i | 0 <= i < |t.threads| ensures ThreadOk(c, t, k, i) {
      assert ThreadOk(c, s, h, i);
    }
    forall i | 0 <= i < |c.nodes| ensures ExpertOk(c, t, k, i) {
      assert ExpertOk(c, s, h, i);
    }
    assert Active(k) == Active(h);
  }

  lemma KeepTakeSlot(c: Config, s: State, h: History, g: nat)
    requires Control(c, s, h) && CanTakeSlot(s, g)
    ensures Control(c, DoTakeSlot(s, g), SetOwner(h, g, Some(s.gpus[g].fetch.expert)))
  {
    var t := DoTakeSlot(s, g);
    assert GpuOk(c, s, h, g);
    assert ExpertOk(c, s, h, s.gpus[g].fetch.expert);
    var k := SetOwner(h, g, Some(s.gpus[g].fetch.expert));
    forall i | 0 <= i < c.gpus ensures GpuOk(c, t, k, i) {
      assert GpuOk(c, s, h, i);
    }
    forall i | 0 <= i < |t.threads| ensures ThreadOk(c, t, k, i) {
      assert ThreadOk(c, s, h, i);
    }
    forall i | 0 <= i < |c.nodes| ensures ExpertOk(c, t, k, i) {
      assert ExpertOk(c, s, h, i);
    }
  }

  lemma KeepSelect(c: Config, s: State, h: History, g: nat, v: nat)
    requires Control(c, s, h) && CanSelect(c, s, g, v)
    ensures Control(c, DoSelect(s, g, v), h)
  {
    var t := DoSelect(s, g, v);
    assert GpuOk(c, s, h, g);
    forall i | 0 <= i < c.gpus ensures GpuOk(c, t, h, i) {
      assert GpuOk(c, s, h, i);
    }
    forall i | 0 <= i < |t.threads| ensures ThreadOk(c, t, h, i) {
      assert ThreadOk(c, s, h, i);
    }
    forall i | 0 <= i < |c.nodes| ensures ExpertOk(c, t, h, i) {
      assert ExpertOk(c, s, h, i);
    }
  }

  lemma KeepEvict(c: Config, s: State, h: History, g: nat)
    requires Control(c, s, h) && CanEvict(c, s, g)
    ensures Control(c, DoEvict(c, s, g), h)
  {
    var t := DoEvict(c, s, g);
    assert GpuOk(c, s, h, g);
    assert ExpertOk(c, s, h, s.gpus[g].fetch.stage.victim);
    BytesRemove(c, s.gpus[g].cached, s.gpus[g].fetch.stage.victim);
    if h.place[s.gpus[g].fetch.stage.victim].OnThread? {
      assert ThreadOk(c, s, h, h.place[s.gpus[g].fetch.stage.victim].j);
    }
    forall i | 0 <= i < c.gpus ensures GpuOk(c, t, h, i) {
      assert GpuOk(c, s, h, i);
    }
    forall i | 0 <= i < |t.threads| ensures ThreadOk(c, t, h, i) {
      assert ThreadOk(c, s, h, i);
    }
    forall i | 0 <= i < |c.nodes| ensures ExpertOk(c, t, h, i) {
      assert ExpertOk(c, s, h, i);
    }
  }

  lemma KeepAccount(c: Config, s: State, h: History, g: nat)
    requires Control(c, s, h) && CanAccount(c, s, g)
    ensures Control(c, DoAccount(c, s, g), h)
  {
    var t := DoAccount(c, s, g);
    assert GpuOk(c, s, h, g);
    assert ExpertOk(c, s, h, s.gpus[g].fetch.expert);
    BytesAdd(c, s.gpus[g].cached, |c.nodes|, s.gpus[g].fetch.expert);
    forall i | 0 <= i < c.gpus ensures GpuOk(c, t, h, i) {
      assert GpuOk(c, s, h, i);
    }
    forall i | 0 <= i < |t.threads| ensures ThreadOk(c, t, h, i) {
      assert ThreadOk(c, s, h, i);
    }
    forall i | 0 <= i < |c.nodes| ensures ExpertOk(c, t, h, i) {
      assert ExpertOk(c, s, h, i);
    }
  }

  lemma PushGpu(c: Config, s: State, h: History, g: nat, i: nat)
    requires Shaped(c, s, h) && CanPush(c, s, g) && i < c.gpus
    requires GpuOk(c, s, h, g) && GpuOk(c, s, h, i)
    ensures GpuOk(c, DoPush(s, g), Move(h, s.gpus[g].fetch.expert, InExec(g)), i)
  {
    var e, u := s.gpus[g].fetch.expert, s.gpus[i];
    ExecQueueFrame(c, h, e, InExec(g), i, u.execQ, u.cached);
    InputQueueFrame(c, h, e, InExec(g), i, u.inputQ);
    if i == g { ExecQueuePush(c, h, g, u.execQ, ExecArgs(e, u.overload), u.cached); }
  }

  lemma PushExpert(c: Config, s: State, h: History, g: nat, i: nat)
    requires Shaped(c, s, h) && CanPush(c, s, g) && i < |c.nodes|
    requires GpuOk(c, s, h, g) && ExpertOk(c, s, h, i)
    ensures ExpertOk(c, DoPush(s, g), Move(h, s.gpus[g].fetch.expert, InExec(g)), i)
  {
    QueuedAppend(s.gpus[g].execQ, ExecArgs(s.gpus[g].fetch.expert, s.gpus[g].overload));
  }

  lemma KeepPush(c: Config, s: State, h: History, g: nat)
    requires Control(c, s, h) && CanPush(c, s, g)
    ensures Control(c, DoPush(s, g), Move(h, s.gpus[g].fetch.expert, InExec(g)))
  {
    var t := DoPush(s, g);
    assert GpuOk(c, s, h, g);
    var k := Move(h, s.gpus[g].fetch.expert, InExec(g));
    forall i | 0 <= i < c.gpus ensures GpuOk(c, t, k, i) {
      PushGpu(c, s, h, g, i);
    }
    forall i | 0 <= i < |t.threads| ensures ThreadOk(c, t, k, i) {
      assert ThreadOk(c, s, h, i);
    }
    forall i | 0 <= i < |c.nodes| ensures ExpertOk(c, t, k, i) {
      PushExpert(c, s, h, g, i);
    }
    assert Active(k) == Active(h);
  }

  lemma ExecPopGpu(c: Config, s: State, h: History, j: nat, e: nat, i: nat)
    requires Shaped(c, s, h) && CanExecPop(c, s, j) && i < c.gpus && e == s.gpus[c.threadGpu[j]].execQ[0].expert
    requires GpuOk(c, s, h, c.threadGpu[j]) && GpuOk(c, s, h, i) && e < |c.nodes|
    ensures GpuOk(c, DoExecPop(c, s, j), Move(h, e, OnThread(j)), i)
  {
    var u := s.gpus[i];
    InputQueueFrame(c, h, e, OnThread(j), i, u.inputQ);
    if i != c.threadGpu[j] {
      ExecQueueFrame(c, h, e, OnThread(j), i, u.execQ, u.cached);
    }
  }

  lemma ExecPopExpert(c: Config, s: State, h: History, j: nat, e: nat, i: nat)
    requires Shaped(c, s, h) && CanExecPop(c, s, j) && i < |c.nodes| && e == s.gpus[c.threadGpu[j]].execQ[0].expert
    requires GpuOk(c, s, h, c.threadGpu[j]) && ExpertOk(c, s, h, i) && e < |c.nodes|
    ensures ExpertOk(c, DoExecPop(c, s, j), Move(h, e, OnThread(j)), i)
  {
    var q := s.gpus[c.threadGpu[j]].execQ;
    if i != e && Queued(q, i) {
      var n :| 0 <= n < |q| && q[n].expert == i;
      assert q[1..][n - 1] == q[n];
    }
  }

  lemma KeepExecPop(c: Config, s: State, h: History, j: nat)
    requires Control(c, s, h) && CanExecPop(c, s, j)
    ensures Control(c, DoExecPop(c, s, j), Move(h, s.gpus[c.threadGpu[j]].execQ[0].expert, OnThread(j)))
  {
    var t := DoExecPop(c, s, j);
    assert GpuOk(c, s, h, c.threadGpu[j]);
    var e := s.gpus[c.threadGpu[j]].execQ[0].expert;
    var k := Move(h, s.gpus[c.threadGpu[j]].execQ[0].expert, OnThread(j));
    forall i | 0 <= i < c.gpus ensures GpuOk(c, t, k, i) {
      ExecPopGpu(c, s, h, j, e, i);
    }
    forall i | 0 <= i < |t.threads| ensures ThreadOk(c, t, k, i) {
      assert ThreadOk(c, s, h, i);
    }
    forall i | 0 <= i < |c.nodes| ensures ExpertOk(c, t, k, i) {
      ExecPopExpert(c, s, h, j, e, i);
    }
    assert Active(k) == Active(h);
  }

  lemma KeepForward(c: Config, s: State, h: History, j: nat)
    requires Control(c, s, h) && CanForward(c, s, j)
    ensures Control(c, DoForward(c, s, j), h)
  {
    var t := DoForward(c, s, j);
    assert ThreadOk(c, s, h, j);
    assert s.threads[j].args.expert in Active(h);
    assert ExpertOk(c, s, h, s.threads[j].args.expert);
    forall i | 0 <= i < c.gpus ensures GpuOk(c, t, h, i) {
      assert GpuOk(c, s, h, i);
    }
    forall i | 0 <= i < |t.threads| ensures ThreadOk(c, t, h, i) {
      assert ThreadOk(c, s, h, i);
    }
    forall i | 0 <= i < |c.nodes| ensures ExpertOk(c, t, h, i) {
      assert ExpertOk(c, s, h, i);
    }
  }

  lemma KeepIdle(c: Config, s: State, h: History, j: nat)
    requires Control(c, s, h) && CanIdle(c, s, j)
    ensures Control(c, DoIdle(c, s, j), h)
  {
    var t := DoIdle(c, s, j);
    assert ThreadOk(c, s, h, j);
    assert ExpertOk(c, s, h, s.threads[j].args.expert);
    forall i | 0 <= i < c.gpus ensures GpuOk(c, t, h, i) {
      assert GpuOk(c, s, h, i);
    }
    forall i | 0 <= i < |t.threads| ensures ThreadOk(c, t, h, i) {
      assert ThreadOk(c, s, h, i);
    }
    forall i | 0 <= i < |c.nodes| ensures ExpertOk(c, t, h, i) {
      assert ExpertOk(c, s, h, i);
    }
  }

  lemma KeepOffload(c: Config, s: State, h: History, j: nat)
    requires Control(c, s, h) && CanOffload(c, s, j)
    ensures Control(c, DoOffload(c, s, j), h)
  {
    var t := DoOffload(c, s, j);
    assert ThreadOk(c, s, h, j);
    assert ExpertOk(c, s, h, s.threads[j].args.expert);
    forall i | 0 <= i < c.gpus ensures GpuOk(c, t, h, i) {
      assert GpuOk(c, s, h, i);
    }
    forall i | 0 <= i < |t.threads| ensures ThreadOk(c, t, h, i) {
      assert ThreadOk(c, s, h, i);
    }
    forall i | 0 <= i < |c.nodes| ensures ExpertOk(c, t, h, i) {
      assert ExpertOk(c, s, h, i);
    }
  }

  lemma KeepRelease(c: Config, s: State, h: History, j: nat)
    requires Control(c, s, h) && CanRelease(c, s, j)
    ensures Control(c, DoRelease(c, s, j), SetOwner(h, c.threadGpu[j], None))
  {
    var t := DoRelease(c, s, j);
    assert ThreadOk(c, s, h, j);
    assert ExpertOk(c, s, h, s.threads[j].args.expert);
    var k := SetOwner(h, c.threadGpu[j], None);
    forall i | 0 <= i < c.gpus ensures GpuOk(c, t, k, i) {
      assert GpuOk(c, s, h, i);
    }
    forall i | 0 <= i < |t.threads| ensures ThreadOk(c, t, k, i) {
      assert ThreadOk(c, s, h, i);
    }
    forall i | 0 <= i < |c.nodes| ensures ExpertOk(c, t, k, i) {
      assert ExpertOk(c, s, h, i);
    }
  }

  lemma KeepAccumulate(c: Config, s: State, h: History, j: nat)
    requires Control(c, s, h) && CanAccumulate(c, s, j)
    ensures Control(c, DoAccumulate(c, s, j), h)
  {
    var t := DoAccumulate(c, s, j);
    assert ThreadOk(c, s, h, j);
    forall i | 0 <= i < c.gpus ensures GpuOk(c, t, h, i) {
      assert GpuOk(c, s, h, i);
    }
    forall i | 0 <= i < |t.threads| ensures ThreadOk(c, t, h, i) {
      assert ThreadOk(c, s, h, i);
    }
    forall i | 0 <= i < |c.nodes| ensures ExpertOk(c, t, h, i) {
      assert ExpertOk(c, s, h, i);
    }
  }

  lemma FinishGpu(c: Config, s: State, h: History, j: nat, e: nat, i: nat)
    requires Shaped(c, s, h) && ThreadAt(s, j, Accumulated) && i < c.gpus && e == s.threads[j].args.expert < |c.nodes|
    requires ThreadOk(c, s, h, j) && GpuOk(c, s, h, i)
    ensures GpuOk(c, DoFinish(s, j), Move(h, e, Nowhere), i)
  {
    ExecQueueFrame(c, h, e, Nowhere, i, s.gpus[i].execQ, s.gpus[i].cached);
    InputQueueFrame(c, h, e, Nowhere, i, s.gpus[i].inputQ);
  }

  lemma FinishThreads(c: Config, s: State, h: History, j: nat, e: nat)
    requires Shaped(c, s, h) && ThreadsOk(c, s, h) && ThreadAt(s, j, Accumulated) && e == s.threads[j].args.expert < |c.nodes|
    ensures ThreadsOk(c, DoFinish(s, j), Move(h, e, Nowhere))
  {
    var t, k := DoFinish(s, j), Move(h, e, Nowhere);
    assert ThreadOk(c, s, h, j);
    forall i | 0 <= i < |t.threads| ensures ThreadOk(c, t, k, i) {
      assert ThreadOk(c, s, h, i);
    }
  }

  lemma FinishExpert(c: Config, s: State, h: History, j: nat, e: nat, i: nat)
    requires Shaped(c, s, h) && ThreadAt(s, j, Accumulated) && e == s.threads[j].args.expert < |c.nodes| && i < |c.nodes|
    requires ThreadOk(c, s, h, j) && ExpertOk(c, s, h, i)
    ensures ExpertOk(c, DoFinish(s, j), Move(h, e, Nowhere), i)
  {
  }

  lemma FinishBarrier(c: Config, s: State, h: History, j: nat, e: nat)
    requires Shaped(c, s, h) && BarrierOk(c, s, h) && ThreadAt(s, j, Accumulated) && e < |c.nodes| && h.place[e] == OnThread(j)
    ensures BarrierOk(c, DoFinish(s, j), Move(h, e, Nowhere))
  {
    assert e in Active(h);
    assert Active(Move(h, e, Nowhere)) == Active(h) - {e};
  }

  lemma KeepFinish(c: Config, s: State, h: History, j: nat)
    requires Control(c, s, h) && CanFinish(c, s, j)
    ensures Control(c, DoFinish(s, j), Move(h, s.threads[j].args.expert, Nowhere))
  {
    var t, e := DoFinish(s, j), s.threads[j].args.expert;
    var k := Move(h, e, Nowhere);
    assert ThreadOk(c, s, h, j);
    FinishBarrier(c, s, h, j, e);
    FinishThreads(c, s, h, j, e);
    forall i | 0 <= i < c.gpus ensures GpuOk(c, t, k, i) {
      FinishGpu(c, s, h, j, e, i);
    }
    forall i | 0 <= i < |c.nodes| ensures ExpertOk(c, t, k, i) {
      FinishExpert(c, s, h, j, e, i);
    }
  }

  lemma KeepEnd(c: Config, s: State, h: History)
    requires Control(c, s, h) && CanEnd(s)
    ensures Control(c, s.(client := Resting), h)
  {
    var t := s.(client := Resting);
    forall i | 0 <= i < c.gpus ensures GpuOk(c, t, h, i) {
      assert GpuOk(c, s, h, i);
    }
    forall i | 0 <= i < |t.threads| ensures ThreadOk(c, t, h, i) {
      assert ThreadOk(c, s, h, i);
    }
    forall i | 0 <= i < |c.nodes| ensures ExpertOk(c, t, h, i) {
      assert ExpertOk(c, s, h, i);
    }
  }

  lemma KeepClear(c: Config, s: State, h: History, e: nat)
    requires Control(c, s, h) && e < |c.nodes|
    ensures Control(c, DoClear(c, s, e), h)
  {
    var t := DoClear(c, s, e);
    forall i | 0 <= i < c.gpus ensures GpuOk(c, t, h, i) {
      assert GpuOk(c, s, h, i);
    }
    forall i | 0 <= i < |t.threads| ensures ThreadOk(c, t, h, i) {
      assert ThreadOk(c, s, h, i);
    }
    forall i | 0 <= i < |c.nodes| ensures ExpertOk(c, t, h, i) {
      assert ExpertOk(c, s, h, i);
    }
  }
}
