/** The dispatcher's guarantees over whole runs. */
module DispatcherTheorems {
  import opened Basics
  import opened DispatcherModel
  import opened DispatcherInvariant
  import opened DispatcherSteps
  import opened DispatcherSlots
  import opened DispatcherValues

  // ---------------------------------------------------------------- every step, every run

  /** What a step does to the tokens and the slot holders. */
  ghost function NextHistory(c: Config, s: State, h: History, step: Step): History
    requires Shaped(c, s, h) && Enabled(c, s, step)
  {
    match step
    case Enqueue(e, g) => Move(h, e, EnqueuePlace(s, e, g))
    case FetchPop(g) => Move(h, s.gpus[g].inputQ[0], AtFetch(g))
    case FetchTakeSlot(g) => SetOwner(h, g, Some(s.gpus[g].fetch.expert))
    case FetchPush(g) => Move(h, s.gpus[g].fetch.expert, InExec(g))
    case ExecPop(j) => Move(h, s.gpus[c.threadGpu[j]].execQ[0].expert, OnThread(j))
    case ExecRelease(j) => SetOwner(h, c.threadGpu[j], None)
    case ExecFinish(j) => Move(h, s.threads[j].args.expert, Nowhere)
    case _ => h
  }

  lemma ClientStep(c: Config, s: State, h: History, step: Step) returns (k: History)
    requires Inv(c, s, h) && Enabled(c, s, step) && EvictionIsAtomic(s, step)
    requires step.BeginRound? || step.Enqueue? || step.EndRound? || step.ClearCount?
    ensures k == NextHistory(c, s, h, step) && Inv(c, Apply(c, s, step), k)
  {
    k := h;
    match step
    case BeginRound(x, plan) =>
      KeepBegin(c, s, h, x, plan);
      ValuesAtBegin(c, s, h, x, plan);
    case Enqueue(e, g) =>
      k := Move(h, e, EnqueuePlace(s, e, g));
      KeepEnqueue(c, s, h, e, g);
      ValuesAtEnqueue(c, s, h, e, g);
    case EndRound => KeepEnd(c, s, h);
    case ClearCount(e) =>
      KeepClear(c, s, h, e);
      if s.client.InRound? {
        assert Contributed(c, Apply(c, s, step), h) == Contributed(c, s, h);
        ValuesFrame(c, s, h, Apply(c, s, step), h);
      }
  }

  lemma FetchMoves(c: Config, s: State, h: History, step: Step) returns (k: History)
    requires Inv(c, s, h) && Enabled(c, s, step)
    requires step.FetchPop? || step.FetchPush?
    ensures k == NextHistory(c, s, h, step) && Inv(c, Apply(c, s, step), k)
  {
    var t := Apply(c, s, step);
    assert GpuOk(c, s, h, step.g);
    if step.FetchPop? {
      KeepPop(c, s, h, step.g);
      var e := s.gpus[step.g].inputQ[0];
      assert PlacedAt(c, h, e, InInput(step.g));
      k := Move(h, e, AtFetch(step.g));
      ValuesAtMove(c, s, h, t, e, AtFetch(step.g));
    } else {
      KeepPush(c, s, h, step.g);
      var e := s.gpus[step.g].fetch.expert;
      k := Move(h, e, InExec(step.g));
      ValuesAtMove(c, s, h, t, e, InExec(step.g));
    }
  }

  lemma FetchDecides(c: Config, s: State, h: History, step: Step) returns (k: History)
    requires Inv(c, s, h) && Enabled(c, s, step)
    requires step.FetchTakeSlot? || step.FetchSelect? || step.FetchEvict? || step.FetchAccount?
    ensures k == NextHistory(c, s, h, step) && Inv(c, Apply(c, s, step), k)
  {
    k := h;
    match step {
      case FetchTakeSlot(g) =>
        k := SetOwner(h, g, Some(s.gpus[g].fetch.expert));
        KeepTakeSlot(c, s, h, g);
      case FetchSelect(g, v) => KeepSelect(c, s, h, g, v);
      case FetchEvict(g) => KeepEvict(c, s, h, g);
      case FetchAccount(g) => KeepAccount(c, s, h, g);
    }
    var t := Apply(c, s, step);
    if s.client.InRound? {
      assert Contributed(c, t, k) == Contributed(c, s, h);
      ValuesFrame(c, s, h, t, k);
    }
  }

  lemma ExecMoves(c: Config, s: State, h: History, step: Step) returns (k: History)
    requires Inv(c, s, h) && Enabled(c, s, step)
    requires step.ExecPop? || step.ExecFinish? || step.ExecForward? || step.ExecAccumulate?
    ensures k == NextHistory(c, s, h, step) && Inv(c, Apply(c, s, step), k)
  {
    k := h;
    match step
    case ExecPop(j) =>
      assert GpuOk(c, s, h, c.threadGpu[j]);
      var e := s.gpus[c.threadGpu[j]].execQ[0].expert;
      k := Move(h, e, OnThread(j));
      KeepExecPop(c, s, h, j);
      ValuesAtMove(c, s, h, Apply(c, s, step), e, OnThread(j));
    case ExecFinish(j) =>
      k := Move(h, s.threads[j].args.expert, Nowhere);
      KeepFinish(c, s, h, j);
      ValuesAtFinish(c, s, h, j);
    case ExecForward(j) =>
      KeepForward(c, s, h, j);
      ValuesAtForward(c, s, h, j);
    case ExecAccumulate(j) =>
      KeepAccumulate(c, s, h, j);
      ValuesAtAccumulate(c, s, h, j);
  }

  lemma ExecPhases(c: Config, s: State, h: History, step: Step) returns (k: History)
    requires Inv(c, s, h) && Enabled(c, s, step)
    requires step.ExecIdle? || step.ExecOffload? || step.ExecRelease?
    ensures k == NextHistory(c, s, h, step) && Inv(c, Apply(c, s, step), k)
  {
    k := h;
    match step
    case ExecIdle(j) =>
      KeepIdle(c, s, h, j);
      ValuesAtPhase(c, s, h, Apply(c, s, step), j, Idled);
    case ExecOffload(j) =>
      KeepOffload(c, s, h, j);
      ValuesAtPhase(c, s, h, Apply(c, s, step), j, Offloaded);
    case ExecRelease(j) =>
      k := SetOwner(h, c.threadGpu[j], None);
      KeepRelease(c, s, h, j);
      var t := Apply(c, s, step);
      ValuesAtPhase(c, s, h, t, j, Released);
      ValuesIgnoreOwners(c, t, h, k);
  }

  lemma ValuesIgnoreOwners(c: Config, s: State, h: History, k: History)
    requires Shaped(c, s, h) && Shaped(c, s, k) && ForwardOk(c) && ValuesAgree(c, s, h) && h.place == k.place
    ensures ValuesAgree(c, s, k)
  {
    if s.client.InRound? {
      assert Contributed(c, s, k) == Contributed(c, s, h);
    }
  }

  /** Every step that keeps the named assumption keeps the invariant, whatever the experts' sizes. */
  lemma StepKeepsInv(c: Config, s: State, h: History, step: Step) returns (k: History)
    requires Inv(c, s, h) && Enabled(c, s, step) && EvictionIsAtomic(s, step)
    ensures k == NextHistory(c, s, h, step) && Inv(c, Apply(c, s, step), k)
  {
    if step.BeginRound? || step.Enqueue? || step.EndRound? || step.ClearCount? {
      k := ClientStep(c, s, h, step);
    } else if step.FetchPop? || step.FetchPush? {
      k := FetchMoves(c, s, h, step);
    } else if step.FetchTakeSlot? || step.FetchSelect? || step.FetchEvict? || step.FetchAccount? {
      k := FetchDecides(c, s, h, step);
    } else if step.ExecPop? || step.ExecFinish? || step.ExecForward? || step.ExecAccumulate? {
      k := ExecMoves(c, s, h, step);
    } else {
      k := ExecPhases(c, s, h, step);
    }
  }

  /** On a device where experts can be exchanged every step also keeps the slot and the room. */
  lemma StepKeepsSlots(c: Config, s: State, h: History, g: nat, step: Step)
    requires Control(c, s, h) && Slots(c, s, h, g) && Enabled(c, s, step) && EvictionIsAtomic(s, step)
    ensures Slots(c, Apply(c, s, step), NextHistory(c, s, h, step), g)
  {
    match step
    case BeginRound(x, plan) => SlotsBegin(c, s, h, g, x, plan);
    case Enqueue(e, d) => SlotsEnqueue(c, s, h, g, e, d);
    case FetchPop(d) => SlotsPop(c, s, h, g, d);
    case FetchTakeSlot(d) => SlotsTakeSlot(c, s, h, g, d);
    case FetchSelect(d, v) => SlotsSelect(c, s, h, g, d, v);
    case FetchEvict(d) => SlotsEvict(c, s, h, g, d);
    case FetchAccount(d) => SlotsAccount(c, s, h, g, d);
    case FetchPush(d) => SlotsPush(c, s, h, g, d);
    case ExecPop(j) => SlotsExecPop(c, s, h, g, j);
    case ExecForward(j) => SlotsForward(c, s, h, g, j);
    case ExecIdle(j) => SlotsIdle(c, s, h, g, j);
    case ExecOffload(j) => SlotsOffload(c, s, h, g, j);
    case ExecRelease(j) => SlotsRelease(c, s, h, g, j);
    case ExecAccumulate(j) => SlotsAccumulate(c, s, h, g, j);
    case ExecFinish(j) => SlotsFinish(c, s, h, g, j);
    case EndRound => SlotsEnd(c, s, h, g);
    case ClearCount(e) => SlotsClear(c, s, h, g, e);
  }

  lemma {:induction false} RunKeepsInv(c: Config, s: State, h: History, steps: seq<Step>) returns (k: History)
    requires Inv(c, s, h) && AtomicRun(c, s, steps)
    ensures Run(c, s, steps) && Inv(c, After(c, s, steps), k)
    ensures forall g: nat :: Slots(c, s, h, g) ==> Slots(c, After(c, s, steps), k, g)
    decreases |steps|
  {
    AtomicRunIsRun(c, s, steps);
    if steps == [] {
      k := h;
    } else {
      var m := StepKeepsInv(c, s, h, steps[0]);
      forall g: nat | Slots(c, s, h, g) ensures Slots(c, Apply(c, s, steps[0]), m, g) {
        StepKeepsSlots(c, s, h, g, steps[0]);
      }
      k := RunKeepsInv(c, Apply(c, s, steps[0]), m, steps[1..]);
    }
  }

  ghost function NoHistory(c: Config): History {
    History(seq(|c.nodes|, _ => Nowhere), seq(c.gpus, _ => None))
  }

  lemma {:induction false} BytesEmpty(c: Config, n: nat)
    requires n <= |c.nodes|
    ensures Bytes(c, {}, n) == 0
  {
    if n > 0 { BytesEmpty(c, n - 1); }
  }

  lemma InitInv(c: Config)
    requires ConfigOk(c) && ForwardOk(c)
    ensures Inv(c, Init(c), NoHistory(c))
    ensures forall g: nat :: g < c.gpus && Swap(c, g) ==> Slots(c, Init(c), NoHistory(c), g)
  {
    BytesEmpty(c, |c.nodes|);
    assert Active(NoHistory(c)) == {};
  }

  /** States that some interleaving reaches from the start. */
  ghost predicate Reachable(c: Config, s: State)
    requires ConfigOk(c)
  {
    exists steps :: AtomicRun(c, Init(c), steps) && Run(c, Init(c), steps) && After(c, Init(c), steps) == s
  }

  lemma ReachableInv(c: Config, s: State) returns (h: History)
    requires ConfigOk(c) && ForwardOk(c) && Reachable(c, s)
    ensures Inv(c, s, h)
  {
    var steps :| AtomicRun(c, Init(c), steps) && Run(c, Init(c), steps) && After(c, Init(c), steps) == s;
    InitInv(c);
    h := RunKeepsInv(c, Init(c), NoHistory(c), steps);
  }

  lemma ReachableSlots(c: Config, s: State, g: nat) returns (h: History)
    requires ConfigOk(c) && ForwardOk(c) && Reachable(c, s) && g < c.gpus && Swap(c, g)
    ensures Inv(c, s, h) && Slots(c, s, h, g)
  {
    var steps :| AtomicRun(c, Init(c), steps) && Run(c, Init(c), steps) && After(c, Init(c), steps) == s;
    InitInv(c);
    h := RunKeepsInv(c, Init(c), NoHistory(c), steps);
    assert Slots(c, Init(c), NoHistory(c), g);
  }

  lemma {:induction false} RunSnoc(c: Config, s: State, steps: seq<Step>, step: Step)
    requires Sized(c, s) && AtomicRun(c, s, steps) && Run(c, s, steps)
    requires Enabled(c, After(c, s, steps), step) && EvictionIsAtomic(After(c, s, steps), step)
    ensures AtomicRun(c, s, steps + [step]) && Run(c, s, steps + [step])
    ensures After(c, s, steps + [step]) == Apply(c, After(c, s, steps), step)
    decreases |steps|
  {
    if steps == [] {
      assert steps + [step] == [step] && [step][1..] == [];
    } else {
      assert (steps + [step])[1..] == steps[1..] + [step] && (steps + [step])[0] == steps[0];
      RunSnoc(c, Apply(c, s, steps[0]), steps[1..], step);
    }
  }

  /** One more step that keeps the named assumption. */
  lemma ReachableStep(c: Config, s: State, step: Step)
    requires ConfigOk(c) && Reachable(c, s) && Sized(c, s) && Enabled(c, s, step) && EvictionIsAtomic(s, step)
    ensures Reachable(c, Apply(c, s, step))
  {
    var steps :| AtomicRun(c, Init(c), steps) && Run(c, Init(c), steps) && After(c, Init(c), steps) == s;
    RunSnoc(c, Init(c), steps, step);
  }

  // ---------------------------------------------------------------- theorems

  /** When the barrier opens, each cell of the result is the sum over the round's
      experts of weight times output, each expert once, whatever the interleaving. */
  lemma OutputIsWeightedSum(c: Config, s: State, t: nat, k: nat)
    requires ConfigOk(c) && ForwardOk(c) && Reachable(c, s)
    requires CanEnd(s)
    ensures InputsOk(c, s.inputs) && MatrixOk(s.acc, |s.inputs.hidden|, c.dim)
    ensures t < |s.inputs.hidden| && k < c.dim ==>
              s.acc[t][k] == Total(s.client.plan, |c.nodes|, Summand(c, s.inputs, t, k))
  {
    var h := ReachableInv(c, s);
    assert Active(h) == {};
    assert Contributed(c, s, h) == s.client.plan;
  }

  /** No compare-exchange of Enqueue finds the expert busy. */
  lemma EnqueueNeverFails(c: Config, s: State, e: nat, g: nat)
    requires ConfigOk(c) && ForwardOk(c) && Reachable(c, s)
    requires CanEnqueue(c, s, e, g)
    ensures s.experts[e].exec == Idle
  {
    var h := ReachableInv(c, s);
    assert ExpertOk(c, s, h, e);
    assert e !in Active(h);
  }

  /** No forward runs off its device or on a bad batch, no victim is unknown to the
      cache, and the barrier counter never goes below zero. */
  lemma NoFaults(c: Config, s: State, j: nat)
    requires ConfigOk(c) && ForwardOk(c) && Reachable(c, s)
    ensures !s.fault && s.pending >= 0
    ensures CanFinish(c, s, j) ==> s.pending > 0
  {
    var h := ReachableInv(c, s);
    if CanFinish(c, s, j) {
      assert ThreadOk(c, s, h, j);
      assert s.threads[j].args.expert in Active(h);
    }
  }

  /** Every concrete place a token can sit. */
  datatype Spot = InputSlot(g: nat, i: nat) | Fetcher(g: nat) | ExecSlot(g: nat, i: nat) | Worker(j: nat)

  predicate Holds(s: State, e: nat, p: Spot) {
    match p
    case InputSlot(g, i) => g < |s.gpus| && i < |s.gpus[g].inputQ| && s.gpus[g].inputQ[i] == e
    case Fetcher(g) => g < |s.gpus| && s.gpus[g].fetch.FetchBusy? && s.gpus[g].fetch.expert == e
    case ExecSlot(g, i) => g < |s.gpus| && i < |s.gpus[g].execQ| && s.gpus[g].execQ[i].expert == e
    case Worker(j) => j < |s.threads| && s.threads[j].ExecBusy? && s.threads[j].args.expert == e
  }

  lemma SpotIsPlace(c: Config, s: State, h: History, e: nat, p: Spot)
    requires Control(c, s, h) && Holds(s, e, p)
    ensures e < |c.nodes|
    ensures h.place[e] ==
              match p
              case InputSlot(g, _) => InInput(g)
              case Fetcher(g) => AtFetch(g)
              case ExecSlot(g, _) => InExec(g)
              case Worker(j) => OnThread(j)
  {
    match p
    case InputSlot(g, i) =>
      assert GpuOk(c, s, h, g);
      assert PlacedAt(c, h, s.gpus[g].inputQ[i], InInput(g));
    case Fetcher(g) => assert GpuOk(c, s, h, g);
    case ExecSlot(g, i) =>
      assert GpuOk(c, s, h, g);
      assert PlacedAt(c, h, s.gpus[g].execQ[i].expert, InExec(g));
    case Worker(j) => assert ThreadOk(c, s, h, j);
  }

  /** No expert ever has two tokens. */
  lemma AtMostOneToken(c: Config, s: State, e: nat, p: Spot, q: Spot)
    requires ConfigOk(c) && ForwardOk(c) && Reachable(c, s)
    requires Holds(s, e, p) && Holds(s, e, q)
    ensures p == q
  {
    var h := ReachableInv(c, s);
    SpotIsPlace(c, s, h, e, p);
    SpotIsPlace(c, s, h, e, q);
    if p.InputSlot? || p.ExecSlot? {
      assert GpuOk(c, s, h, p.g);
      assert NoRepeat(s.gpus[p.g].inputQ) && Distinct(s.gpus[p.g].execQ);
    }
  }

  /** An expert that is not IDLE has a token, and it is one whose forward has not been published. */
  lemma BusyExpertHasToken(c: Config, s: State, e: nat) returns (p: Spot)
    requires ConfigOk(c) && ForwardOk(c) && Reachable(c, s)
    requires e < |c.nodes| && s.experts[e].exec == Fetching
    ensures Holds(s, e, p)
    ensures p.Worker? ==> s.threads[p.j].phase.Popped? || s.threads[p.j].phase.Computed?
  {
    var h := ReachableInv(c, s);
    assert ExpertOk(c, s, h, e);
    match h.place[e]
    case InInput(g) =>
      var i :| 0 <= i < |s.gpus[g].inputQ| && s.gpus[g].inputQ[i] == e;
      p := InputSlot(g, i);
    case AtFetch(g) => p := Fetcher(g);
    case InExec(g) =>
      var i :| 0 <= i < |s.gpus[g].execQ| && s.gpus[g].execQ[i].expert == e;
      p := ExecSlot(g, i);
    case OnThread(j) => p := Worker(j);
  }

  /** A token's place is the only one. */
  lemma OnlySpot(c: Config, s: State, e: nat, p: Spot)
    requires ConfigOk(c) && ForwardOk(c) && Reachable(c, s) && Holds(s, e, p)
    ensures forall q :: Holds(s, e, q) ==> q == p
  {
    forall q | Holds(s, e, q) ensures q == p { AtMostOneToken(c, s, e, p, q); }
  }

  /** An expert that waits for a fetch is on the host, one that waits for a forward is on the
      device that will run it. */
  lemma TokenDevice(c: Config, s: State, e: nat, p: Spot)
    requires ConfigOk(c) && ForwardOk(c) && Reachable(c, s) && Holds(s, e, p)
    ensures Sized(c, s) && e < |c.nodes|
    ensures p.InputSlot? ==> s.experts[e].device == Host
    ensures p.Fetcher? ==> s.experts[e].device == if s.gpus[p.g].fetch.stage.Moved? then Cuda(p.g) else Host
    ensures p.ExecSlot? ==> s.experts[e].device == Cuda(p.g)
    ensures p.Worker? && (s.threads[p.j].phase.Popped? || s.threads[p.j].phase.Computed?) ==>
              s.experts[e].device == Cuda(c.threadGpu[p.j])
  {
    var h := ReachableInv(c, s);
    SpotIsPlace(c, s, h, e, p);
    assert ExpertOk(c, s, h, e);
  }

  /** A chosen victim has no forward left to run: no queue holds it, and a thread
      that holds it is already past the IDLE store. */
  lemma VictimIsFinished(c: Config, s: State, g: nat, p: Spot)
    requires ConfigOk(c) && ForwardOk(c) && Reachable(c, s)
    requires CanEvict(c, s, g) && Holds(s, s.gpus[g].fetch.stage.victim, p)
    ensures p.Worker?
    ensures s.threads[p.j].phase.Idled? || s.threads[p.j].phase.Accumulated?
    ensures !s.threads[p.j].args.evict
  {
    var h := ReachableInv(c, s);
    var v := s.gpus[g].fetch.stage.victim;
    assert GpuOk(c, s, h, g);
    assert ExpertOk(c, s, h, v);
    SpotIsPlace(c, s, h, v, p);
    if p.Worker? { assert ThreadOk(c, s, h, p.j); }
  }

  /** Experts on device g, counted by the cache or not. */
  ghost function Resident(c: Config, s: State, g: nat): set<nat>
    requires Sized(c, s)
  {
    set e | 0 <= e < |c.nodes| && s.experts[e].device == Cuda(g)
  }

  /** Whatever the sizes, room and the bytes of the cached experts always add up to the limit,
      and everything cached is resident. */
  lemma RoomIsConserved(c: Config, s: State, g: nat)
    requires ConfigOk(c) && ForwardOk(c) && Reachable(c, s) && g < c.gpus
    ensures s.gpus[g].room + Bytes(c, s.gpus[g].cached, |c.nodes|) == c.limit[g]
    ensures s.gpus[g].cached <= Resident(c, s, g)
  {
    var h := ReachableInv(c, s);
    assert GpuOk(c, s, h, g);
  }

  lemma UncountedIsOne(c: Config, s: State, h: History, g: nat, e: nat)
    requires Slots(c, s, h, g) && GpuOk(c, s, h, g) && e in Resident(c, s, g) && e !in s.gpus[g].cached
    ensures s.gpus[g].overload && Resident(c, s, g) == s.gpus[g].cached + {e}
  {
    forall x | x in Resident(c, s, g) && x !in s.gpus[g].cached ensures x == e {
      assert ResidentOk(c, s, h, g, x) && ResidentOk(c, s, h, g, e);
    }
    assert ResidentOk(c, s, h, g, e);
  }

  /** Where experts can be exchanged the room is never negative, at most one resident expert is
      uncounted, only under the overload flag, and residency exceeds the limit by no more than it. */
  lemma CacheAccounting(c: Config, s: State, g: nat)
    requires ConfigOk(c) && ForwardOk(c) && Reachable(c, s) && g < c.gpus && Swap(c, g)
    ensures s.gpus[g].room >= 0 && Bytes(c, s.gpus[g].cached, |c.nodes|) <= c.limit[g]
    ensures s.gpus[g].cached <= Resident(c, s, g)
    ensures forall e :: e in Resident(c, s, g) && e !in s.gpus[g].cached ==>
              && s.gpus[g].overload && Resident(c, s, g) == s.gpus[g].cached + {e}
              && Bytes(c, Resident(c, s, g), |c.nodes|) <= c.limit[g] + c.nodes[e].size
  {
    RoomIsConserved(c, s, g);
    var h := ReachableSlots(c, s, g);
    assert SlotOk(c, s, h, g) && GpuOk(c, s, h, g);
    forall e | e in Resident(c, s, g) && e !in s.gpus[g].cached
      ensures s.gpus[g].overload && Resident(c, s, g) == s.gpus[g].cached + {e}
      ensures Bytes(c, Resident(c, s, g), |c.nodes|) <= c.limit[g] + c.nodes[e].size
    {
      UncountedIsOne(c, s, h, g, e);
      BytesAdd(c, s.gpus[g].cached, |c.nodes|, e);
    }
  }

  /** Where experts can be exchanged the overload slot is taken only in a prefill and while
      nothing outside the cache fits. */
  lemma SlotNeedsFullCache(c: Config, s: State, g: nat)
    requires ConfigOk(c) && ForwardOk(c) && Reachable(c, s) && g < c.gpus && Swap(c, g) && s.gpus[g].overload
    ensures Crowded(c, s.gpus[g]) && |s.inputs.hidden| > 1
  {
    var h := ReachableSlots(c, s, g);
    assert SlotOk(c, s, h, g);
  }

  /** Once the slot's expert is off the device, the cache counts everything resident. */
  lemma OffloadedWasLast(c: Config, s: State, g: nat, j: nat)
    requires ConfigOk(c) && ForwardOk(c) && Reachable(c, s) && g < c.gpus && Swap(c, g)
    requires ThreadAt(s, j, Offloaded) && j < |c.threadGpu| && c.threadGpu[j] == g
    ensures Resident(c, s, g) == s.gpus[g].cached
  {
    RoomIsConserved(c, s, g);
    var h := ReachableSlots(c, s, g);
    assert ThreadOk(c, s, h, j) && WorkerOk(c, s, h, g, j);
    assert ExpertOk(c, s, h, s.threads[j].args.expert);
    forall e | e in Resident(c, s, g) ensures e in s.gpus[g].cached {
      assert ResidentOk(c, s, h, g, e);
    }
  }
}
