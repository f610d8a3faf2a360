/** What each call of the dispatcher gives its caller, in every state the machine reaches. */
module DispatcherEffects {
  import opened DispatcherModel
  import opened DispatcherInvariant
  import opened DispatcherSlots
  import opened DispatcherValues
  import opened DispatcherTheorems
  import opened DispatcherHistory

  /** A state some interleaving reaches. */
  ghost predicate Alive(c: Config, s: State) {
    ConfigOk(c) && ForwardOk(c) && Sized(c, s) && Reachable(c, s)
  }

  /** The only token of `e` is at `p`. */
  ghost predicate OnlyAt(s: State, e: nat, p: Spot) {
    Holds(s, e, p) && forall q :: Holds(s, e, q) ==> q == p
  }

  lemma StartsAlive(c: Config)
    requires ConfigOk(c) && ForwardOk(c)
    ensures Alive(c, Init(c))
  {
    assert AtomicRun(c, Init(c), []) && Run(c, Init(c), []) && After(c, Init(c), []) == Init(c);
  }

  /** A new round: the barrier is open only if nothing is planned, and every planned expert can be enqueued. */
  ghost predicate Begun(c: Config, t: State, x: Inputs, plan: set<nat>)
    requires Sized(c, t)
  {
    && t.inputs == x && t.client == InRound(plan, plan)
    && MatrixOk(t.acc, |x.hidden|, c.dim) && (forall r, k :: 0 <= r < |x.hidden| && 0 <= k < c.dim ==> t.acc[r][k] == 0.0)
    && (CanEnd(t) <==> plan == {})
    && forall e: nat :: e in plan ==> e < |c.nodes| && t.experts[e].exec == Idle
  }

  lemma BeginEffect(c: Config, s: State, x: Inputs, plan: set<nat>)
    requires Alive(c, s) && CanBegin(c, s, x, plan)
    ensures Alive(c, DoBegin(c, s, x, plan)) && Begun(c, DoBegin(c, s, x, plan), x, plan)
  {
    ReachableStep(c, s, BeginRound(x, plan));
    var t := DoBegin(c, s, x, plan);
    var h := ReachableInv(c, t);
    forall e: nat | e in plan ensures e < |c.nodes| && t.experts[e].exec == Idle {
      assert ExpertOk(c, t, h, e);
      assert e !in Active(h);
    }
  }

  /** The compare-exchange succeeded, and the expert's one token is in the exec queue of the device
      it is on, or else in the input queue of the device asked for. */
  ghost predicate Enqueued(c: Config, s: State, t: State, e: nat, g: nat)
    requires Sized(c, s) && Sized(c, t) && e < |c.nodes| && g < c.gpus
  {
    && !t.fault && s.experts[e].exec == Idle && t.experts[e].exec == Fetching
    && match s.experts[e].device
       case Cuda(d) =>
         d < c.gpus && t.gpus[d].execQ == s.gpus[d].execQ + [ExecArgs(e, false)] && OnlyAt(t, e, ExecSlot(d, |s.gpus[d].execQ|))
       case Host => t.gpus[g].inputQ == s.gpus[g].inputQ + [e] && OnlyAt(t, e, InputSlot(g, |s.gpus[g].inputQ|))
  }

  lemma EnqueueEffect(c: Config, s: State, e: nat, g: nat)
    requires Alive(c, s) && CanEnqueue(c, s, e, g) && NotSelected(s, e)
    ensures Alive(c, DoEnqueue(c, s, e, g)) && Enqueued(c, s, DoEnqueue(c, s, e, g), e, g)
  {
    EnqueueNeverFails(c, s, e, g);
    ReachableStep(c, s, Enqueue(e, g));
    var t := DoEnqueue(c, s, e, g);
    NoFaults(c, t, 0);
    match s.experts[e].device
    case Cuda(d) => OnlySpot(c, t, e, ExecSlot(d, |s.gpus[d].execQ|));
    case Host => OnlySpot(c, t, e, InputSlot(g, |s.gpus[g].inputQ|));
  }

  /** The first expert of the queue is on the host with its one token at the fetch thread. It goes on
      at once exactly if it fits the room; else a prefill waits for the slot and one token for a victim. */
  ghost predicate Fetched(c: Config, s: State, t: State, g: nat, e: nat)
    requires Sized(c, s) && Sized(c, t) && g < c.gpus && e < |c.nodes|
  {
    && s.gpus[g].inputQ == [e] + t.gpus[g].inputQ
    && OnlyAt(t, e, Fetcher(g)) && t.experts[e].device == Host
    && (t.gpus[g].fetch.stage == Ready <==> c.nodes[e].size <= t.gpus[g].room)
    && (t.gpus[g].fetch.stage == NeedSlot <==> c.nodes[e].size > t.gpus[g].room && |t.inputs.hidden| > 1)
    && (t.gpus[g].fetch.stage == NeedVictim <==> c.nodes[e].size > t.gpus[g].room && |t.inputs.hidden| <= 1)
  }

  lemma PopEffect(c: Config, s: State, g: nat)
    requires Alive(c, s) && CanPop(c, s, g)
    ensures Alive(c, DoPop(c, s, g)) && Fetched(c, s, DoPop(c, s, g), g, s.gpus[g].inputQ[0])
  {
    ReachableStep(c, s, FetchPop(g));
    var t, e := DoPop(c, s, g), s.gpus[g].inputQ[0];
    OnlySpot(c, t, e, Fetcher(g));
    TokenDevice(c, t, e, Fetcher(g));
  }

  lemma TakeSlotEffect(c: Config, s: State, g: nat)
    requires Alive(c, s) && CanTakeSlot(s, g)
    ensures Alive(c, DoTakeSlot(s, g))
    ensures Swap(c, g) ==> Crowded(c, s.gpus[g]) && |s.inputs.hidden| > 1
  {
    ReachableStep(c, s, FetchTakeSlot(g));
    if Swap(c, g) { SlotNeedsFullCache(c, DoTakeSlot(s, g), g); }
  }

  lemma SelectEffect(c: Config, s: State, g: nat, v: nat)
    requires Alive(c, s) && CanSelect(c, s, g, v)
    ensures Alive(c, DoSelect(s, g, v))
  {
    ReachableStep(c, s, FetchSelect(g, v));
  }

  /** The victim was cached and its forward over; it is gone from the device, and room and cached
      bytes still add up to the limit. */
  ghost predicate Evicted(c: Config, s: State, t: State, g: nat, v: nat)
    requires Sized(c, s) && Sized(c, t) && g < c.gpus && v < |c.nodes| && |c.limit| == c.gpus
  {
    && !t.fault && v in s.gpus[g].cached && s.experts[v].exec == Idle && v !in Resident(c, t, g)
    && (forall p :: Holds(s, v, p) ==> p.Worker?)
    && t.gpus[g].cached == s.gpus[g].cached - {v} && t.gpus[g].room == s.gpus[g].room + c.nodes[v].size
    && t.gpus[g].room + Bytes(c, t.gpus[g].cached, |c.nodes|) == c.limit[g]
  }

  lemma EvictEffect(c: Config, s: State, g: nat)
    requires Alive(c, s) && CanEvict(c, s, g)
    ensures Alive(c, DoEvict(c, s, g)) && Evicted(c, s, DoEvict(c, s, g), g, s.gpus[g].fetch.stage.victim)
  {
    ReachableStep(c, s, FetchEvict(g));
    var t, v := DoEvict(c, s, g), s.gpus[g].fetch.stage.victim;
    NoFaults(c, t, 0);
    RoomIsConserved(c, t, g);
    var h := ReachableInv(c, s);
    assert GpuOk(c, s, h, g);
    forall p | Holds(s, v, p) ensures p.Worker? { VictimIsFinished(c, s, g, p); }
  }

  /** The expert is on the device and has one visit more, no other has. The room is what the cached
      bytes leave; it is not negative where experts can be exchanged. */
  ghost predicate Accounted(c: Config, s: State, t: State, g: nat, e: nat)
    requires Sized(c, s) && Sized(c, t) && g < c.gpus && |c.limit| == c.gpus
  {
    && e in Resident(c, t, g)
    && (forall x :: 0 <= x < |c.nodes| ==> t.experts[x].visits == s.experts[x].visits + if x == e then 1 else 0)
    && t.gpus[g].cached == (if s.gpus[g].overload then s.gpus[g].cached else s.gpus[g].cached + {e})
    && t.gpus[g].room + Bytes(c, t.gpus[g].cached, |c.nodes|) == c.limit[g]
    && (Swap(c, g) ==> t.gpus[g].room >= 0)
  }

  lemma AccountEffect(c: Config, s: State, g: nat)
    requires Alive(c, s) && CanAccount(c, s, g)
    ensures Alive(c, DoAccount(c, s, g)) && Accounted(c, s, DoAccount(c, s, g), g, s.gpus[g].fetch.expert)
  {
    ReachableStep(c, s, FetchAccount(g));
    var t, e := DoAccount(c, s, g), s.gpus[g].fetch.expert;
    RoomIsConserved(c, t, g);
    if Swap(c, g) { CacheAccounting(c, t, g); }
    TokenDevice(c, t, e, Fetcher(g));
  }

  lemma PushEffect(c: Config, s: State, g: nat)
    requires Alive(c, s) && CanPush(c, s, g)
    ensures Alive(c, DoPush(s, g))
    ensures var t, e := DoPush(s, g), s.gpus[g].fetch.expert;
            && t.gpus[g].execQ == s.gpus[g].execQ + [ExecArgs(e, s.gpus[g].overload)]
            && OnlyAt(t, e, ExecSlot(g, |s.gpus[g].execQ|)) && t.experts[e].device == Cuda(g)
            && (Swap(c, g) ==> (s.gpus[g].overload <==> e !in t.gpus[g].cached))
  {
    ReachableStep(c, s, FetchPush(g));
    var t, e := DoPush(s, g), s.gpus[g].fetch.expert;
    OnlySpot(c, t, e, ExecSlot(g, |s.gpus[g].execQ|));
    TokenDevice(c, t, e, ExecSlot(g, |s.gpus[g].execQ|));
    if Swap(c, g) {
      SlotIsGivenBack(c, t, g);
      assert t.gpus[g].execQ[|s.gpus[g].execQ|] == ExecArgs(e, s.gpus[g].overload);
    }
  }

  lemma ExecPopEffect(c: Config, s: State, j: nat)
    requires Alive(c, s) && CanExecPop(c, s, j)
    ensures Alive(c, DoExecPop(c, s, j))
    ensures var t, e := DoExecPop(c, s, j), s.gpus[c.threadGpu[j]].execQ[0].expert;
            && s.gpus[c.threadGpu[j]].execQ[1..] == t.gpus[c.threadGpu[j]].execQ
            && OnlyAt(t, e, Worker(j)) && t.experts[e].device == Cuda(c.threadGpu[j])
  {
    ReachableStep(c, s, ExecPop(j));
    var t, e := DoExecPop(c, s, j), s.gpus[c.threadGpu[j]].execQ[0].expert;
    OnlySpot(c, t, e, Worker(j));
    TokenDevice(c, t, e, Worker(j));
  }

  /** The forward did not fault: the weights were there, and each of 1 to 256 rows has its output. */
  ghost predicate Ran(c: Config, t: State, j: nat, e: nat)
    requires Sized(c, t) && j < |t.threads| && e < |c.nodes|
  {
    && !t.fault && t.threads[j].ExecBusy? && t.threads[j].phase == Computed && InputsOk(c, t.inputs)
    && 1 <= |t.threads[j].out| == |InputRows(c, t.inputs, e)| <= MAX_TOKENS
    && forall k :: 0 <= k < |t.threads[j].out| ==> t.threads[j].out[k] == c.forward(e, InputRows(c, t.inputs, e)[k])
  }

  lemma ForwardEffect(c: Config, s: State, j: nat)
    requires Alive(c, s) && CanForward(c, s, j)
    ensures Alive(c, DoForward(c, s, j)) && Ran(c, DoForward(c, s, j), j, s.threads[j].args.expert)
  {
    ReachableStep(c, s, ExecForward(j));
    NoFaults(c, DoForward(c, s, j), 0);
  }

  lemma IdleEffect(c: Config, s: State, j: nat)
    requires Alive(c, s) && CanIdle(c, s, j)
    ensures Alive(c, DoIdle(c, s, j))
    ensures var t, e := DoIdle(c, s, j), s.threads[j].args.expert; t.experts[e].exec == Idle && OnlyAt(t, e, Worker(j))
  {
    ReachableStep(c, s, ExecIdle(j));
    OnlySpot(c, DoIdle(c, s, j), s.threads[j].args.expert, Worker(j));
  }

  /** Where experts can be exchanged, the cache counts all that is on the device. */
  ghost predicate AllCounted(c: Config, t: State, g: nat)
    requires Sized(c, t) && |c.limit| == c.gpus
  {
    g < c.gpus && (Swap(c, g) ==> Resident(c, t, g) == t.gpus[g].cached)
  }

  lemma OffloadEffect(c: Config, s: State, j: nat)
    requires Alive(c, s) && CanOffload(c, s, j)
    ensures Alive(c, DoOffload(c, s, j)) && AllCounted(c, DoOffload(c, s, j), c.threadGpu[j])
  {
    ReachableStep(c, s, ExecOffload(j));
    if Swap(c, c.threadGpu[j]) { OffloadedWasLast(c, DoOffload(c, s, j), c.threadGpu[j], j); }
  }

  lemma ReleaseEffect(c: Config, s: State, j: nat)
    requires Alive(c, s) && CanRelease(c, s, j)
    ensures Alive(c, DoRelease(c, s, j)) && AllCounted(c, DoRelease(c, s, j), c.threadGpu[j])
    ensures !DoRelease(c, s, j).gpus[c.threadGpu[j]].overload
  {
    ReachableStep(c, s, ExecRelease(j));
    var t, g := DoRelease(c, s, j), c.threadGpu[j];
    if Swap(c, g) {
      CacheAccounting(c, t, g);
      assert Resident(c, t, g) == t.gpus[g].cached;
    }
  }

  /** Every cell grew by the expert's weighted output where the token selects it, and nowhere else. */
  ghost predicate Added(c: Config, s: State, t: State, e: nat) {
    && ForwardOk(c) && InputsOk(c, s.inputs) && MatrixOk(s.acc, |s.inputs.hidden|, c.dim) && MatrixOk(t.acc, |s.inputs.hidden|, c.dim)
    && forall r: nat, k: nat :: r < |s.inputs.hidden| && k < c.dim ==>
         t.acc[r][k] == s.acc[r][k] + Contribution(c, s.inputs, e, r, k)
  }

  lemma AccumulateEffect(c: Config, s: State, j: nat)
    requires Alive(c, s) && CanAccumulate(c, s, j)
    ensures Alive(c, DoAccumulate(c, s, j)) && Added(c, s, DoAccumulate(c, s, j), s.threads[j].args.expert)
  {
    ReachableStep(c, s, ExecAccumulate(j));
    var h := ReachableInv(c, s);
    var t, e := DoAccumulate(c, s, j), s.threads[j].args.expert;
    assert ThreadOk(c, s, h, j);
    BusyMeansRound(c, s, h, e);
    forall r: nat, k: nat | r < |s.inputs.hidden| && k < c.dim
      ensures t.acc[r][k] == s.acc[r][k] + Contribution(c, s.inputs, e, r, k)
    {
      AccumulateAdds(c, s.inputs, s.acc, e, r, k);
    }
  }

  /** The expert has no token left, and the barrier opens exactly if no expert of the round has one
      or is still to be enqueued. */
  ghost predicate Done(s: State, e: nat) {
    && s.pending >= 0 && (forall p :: !Holds(s, e, p))
    && (CanEnd(s) <==> s.client.InRound? && s.client.todo == {} && forall x :: !HasToken(s, x))
  }

  lemma FinishEffect(c: Config, s: State, j: nat)
    requires Alive(c, s) && CanFinish(c, s, j)
    ensures Alive(c, DoFinish(s, j)) && Done(DoFinish(s, j), s.threads[j].args.expert)
  {
    ReachableStep(c, s, ExecFinish(j));
    NoFaults(c, s, j);
    var t, e := DoFinish(s, j), s.threads[j].args.expert;
    OnlySpot(c, s, e, Worker(j));
    forall p ensures !Holds(t, e, p) {
      if Holds(t, e, p) { assert Holds(s, e, p); }
    }
    PendingIsOutstanding(c, t);
  }

  /** Nothing but the visit counts of the first n experts is cleared. */
  ghost predicate Cleared(s: State, t: State, n: nat) {
    && |t.experts| == |s.experts| && t == s.(experts := t.experts)
    && forall x :: 0 <= x < |s.experts| ==> t.experts[x] == if x < n then s.experts[x].(visits := 0) else s.experts[x]
  }

  lemma ClearEffect(c: Config, s: State, e: nat)
    requires Alive(c, s) && e < |c.nodes|
    ensures Alive(c, DoClear(c, s, e))
  {
    ReachableStep(c, s, ClearCount(e));
  }

  /** Each cell is the sum over the plan of weight times output. */
  ghost predicate Summed(c: Config, x: Inputs, plan: set<nat>, out: seq<Row>) {
    && ForwardOk(c) && InputsOk(c, x) && MatrixOk(out, |x.hidden|, c.dim)
    && forall t: nat, k: nat :: t < |x.hidden| && k < c.dim ==> out[t][k] == Total(plan, |c.nodes|, Summand(c, x, t, k))
  }

  lemma EndEffect(c: Config, s: State)
    requires Alive(c, s) && CanEnd(s)
    ensures Alive(c, s.(client := Resting)) && Summed(c, s.inputs, s.client.plan, s.acc)
  {
    ReachableStep(c, s, EndRound);
    OutputIsWeightedSum(c, s, 0, 0);
    forall t: nat, k: nat | t < |s.inputs.hidden| && k < c.dim
      ensures s.acc[t][k] == Total(s.client.plan, |c.nodes|, Summand(c, s.inputs, t, k))
    {
      OutputIsWeightedSum(c, s, t, k);
    }
  }
}
