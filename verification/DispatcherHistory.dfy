/**
 * What the fields of the dispatcher say about the steps taken so far: visit counts are fetches,
 * queues are first in first out, and the barrier counts what is outstanding.
 */
module DispatcherHistory {
  import opened DispatcherModel
  import opened DispatcherInvariant
  import opened DispatcherSlots
  import opened DispatcherTheorems

  // ---------------------------------------------------------------- visit counts

  /** The step moves expert e onto a device: the fetch thread that takes it has e in hand. */
  predicate MovesIn(s: State, step: Step, e: nat) {
    step.FetchAccount? && step.g < |s.gpus| && s.gpus[step.g].fetch.FetchBusy? && s.gpus[step.g].fetch.expert == e
  }

  /** How many steps of a run move expert e onto a device. */
  function Fetches(c: Config, s: State, steps: seq<Step>, e: nat): nat
    requires Sized(c, s) && Run(c, s, steps)
    decreases |steps|
  {
    if steps == [] then 0 else
      (if MovesIn(s, steps[0], e) then 1 else 0) + Fetches(c, Apply(c, s, steps[0]), steps[1..], e)
  }

  /** The count of expert e is not cleared. */
  predicate NoClear(steps: seq<Step>, e: nat) { forall i :: 0 <= i < |steps| ==> steps[i] != ClearCount(e) }

  lemma StepVisits(c: Config, s: State, step: Step, e: nat)
    requires Sized(c, s) && Enabled(c, s, step) && e < |c.nodes| && step != ClearCount(e)
    ensures Apply(c, s, step).experts[e].visits == s.experts[e].visits + if MovesIn(s, step, e) then 1 else 0
  {
  }

  lemma {:induction false} VisitsGrow(c: Config, s: State, steps: seq<Step>, e: nat)
    requires Sized(c, s) && Run(c, s, steps) && e < |c.nodes| && NoClear(steps, e)
    ensures After(c, s, steps).experts[e].visits == s.experts[e].visits + Fetches(c, s, steps, e)
    decreases |steps|
  {
    if steps != [] {
      StepVisits(c, s, steps[0], e);
      VisitsGrow(c, Apply(c, s, steps[0]), steps[1..], e);
    }
  }

  /** Counting starts in s: at the start, or after a clear. */
  ghost predicate Uncounted(c: Config, s: State, e: nat)
    requires ConfigOk(c)
  {
    s == Init(c) || exists p: State :: Sized(c, p) && e < |c.nodes| && s == DoClear(c, p, e)
  }

  lemma StartsAtZero(c: Config, s: State, e: nat)
    requires ConfigOk(c) && Sized(c, s) && Uncounted(c, s, e) && e < |c.nodes|
    ensures s.experts[e].visits == 0
  {
  }

  /** Over every run, atomic or not, incache_visit_count is the number of fetches since the start or
      since the last clear. */
  lemma VisitsAreFetches(c: Config, s: State, steps: seq<Step>, e: nat)
    requires ConfigOk(c) && Sized(c, s) && Uncounted(c, s, e) && Run(c, s, steps) && e < |c.nodes| && NoClear(steps, e)
    ensures After(c, s, steps).experts[e].visits == Fetches(c, s, steps, e)
  {
    StartsAtZero(c, s, e);
    VisitsGrow(c, s, steps, e);
  }

  /** A victim is cached and idle, and no cached idle expert was fetched less often, each counted
      from the start or its last clear. */
  lemma VictimFetchedLeast(c: Config, t: State, v: nat, from: State, steps: seq<Step>, u: nat, since: State, more: seq<Step>, g: nat)
    requires ConfigOk(c) && ForwardOk(c) && Sized(c, t) && Reachable(c, t) && Enabled(c, t, FetchSelect(g, v)) && u < |c.nodes|
    requires Sized(c, from) && Uncounted(c, from, v) && Run(c, from, steps) && NoClear(steps, v) && After(c, from, steps) == t
    requires Sized(c, since) && Uncounted(c, since, u) && Run(c, since, more) && NoClear(more, u) && After(c, since, more) == t
    ensures v in t.gpus[g].cached && t.experts[v].exec == Idle
    ensures u in t.gpus[g].cached && t.experts[u].exec == Idle ==> Fetches(c, from, steps, v) <= Fetches(c, since, more, u)
  {
    VisitsAreFetches(c, from, steps, v);
    VisitsAreFetches(c, since, more, u);
    RoomIsConserved(c, t, g);
  }

  // ---------------------------------------------------------------- queues

  /** The expert that a step adds to the input queue of device g: a miss. */
  function Miss(s: State, step: Step, g: nat): seq<nat> {
    if step.Enqueue? && step.g == g && step.e < |s.experts| && s.experts[step.e].exec == Idle && s.experts[step.e].device == Host
    then [step.e] else []
  }

  /** The expert that the fetch thread of g has in hand after a pop. */
  function TakenBy(t: State, step: Step, g: nat): seq<nat> {
    if step == FetchPop(g) && g < |t.gpus| && t.gpus[g].fetch.FetchBusy? then [t.gpus[g].fetch.expert] else []
  }

  /** The expert that a step adds to the exec queue of device g: a hit, or a finished fetch. */
  function Runnable(s: State, step: Step, g: nat): seq<nat> {
    if step.Enqueue? && step.e < |s.experts| && s.experts[step.e].exec == Idle && s.experts[step.e].device == Cuda(g) then [step.e]
    else if step == FetchPush(g) && g < |s.gpus| && s.gpus[g].fetch.FetchBusy? then [s.gpus[g].fetch.expert]
    else []
  }

  /** The expert that an exec thread of device g has in hand after a pop. */
  function StartedBy(c: Config, t: State, step: Step, g: nat): seq<nat> {
    if step.ExecPop? && step.j < |c.threadGpu| && c.threadGpu[step.j] == g && step.j < |t.threads| && t.threads[step.j].ExecBusy?
    then [t.threads[step.j].args.expert] else []
  }

  function Misses(c: Config, s: State, steps: seq<Step>, g: nat): seq<nat>
    requires Sized(c, s) && Run(c, s, steps)
    decreases |steps|
  {
    if steps == [] then [] else Miss(s, steps[0], g) + Misses(c, Apply(c, s, steps[0]), steps[1..], g)
  }

  function Taken(c: Config, s: State, steps: seq<Step>, g: nat): seq<nat>
    requires Sized(c, s) && Run(c, s, steps)
    decreases |steps|
  {
    if steps == [] then [] else
      var t := Apply(c, s, steps[0]);
      TakenBy(t, steps[0], g) + Taken(c, t, steps[1..], g)
  }

  function Runnables(c: Config, s: State, steps: seq<Step>, g: nat): seq<nat>
    requires Sized(c, s) && Run(c, s, steps)
    decreases |steps|
  {
    if steps == [] then [] else Runnable(s, steps[0], g) + Runnables(c, Apply(c, s, steps[0]), steps[1..], g)
  }

  function Started(c: Config, s: State, steps: seq<Step>, g: nat): seq<nat>
    requires Sized(c, s) && Run(c, s, steps)
    decreases |steps|
  {
    if steps == [] then [] else
      var t := Apply(c, s, steps[0]);
      StartedBy(c, t, steps[0], g) + Started(c, t, steps[1..], g)
  }

  /** The experts of an exec queue. */
  function Names(q: seq<ExecArgs>): (r: seq<nat>)
    ensures |r| == |q| && forall i :: 0 <= i < |q| ==> r[i] == q[i].expert
  {
    seq(|q|, i requires 0 <= i < |q| => q[i].expert)
  }

  lemma StepInput(c: Config, s: State, step: Step, g: nat)
    requires Sized(c, s) && Enabled(c, s, step) && g < c.gpus
    ensures var t := Apply(c, s, step); s.gpus[g].inputQ + Miss(s, step, g) == TakenBy(t, step, g) + t.gpus[g].inputQ
  {
    if step.FetchPop? {
      InputPops(c, s, step.g, g);
    } else if step.Enqueue? {
      InputGrows(c, s, step, g);
    } else {
      InputStays(c, s, step, g);
    }
  }

  lemma InputPops(c: Config, s: State, d: nat, g: nat)
    requires Sized(c, s) && CanPop(c, s, d) && g < c.gpus
    ensures s.gpus[g].inputQ == TakenBy(DoPop(c, s, d), FetchPop(d), g) + DoPop(c, s, d).gpus[g].inputQ
  {
    if d == g { assert s.gpus[g].inputQ == [s.gpus[g].inputQ[0]] + s.gpus[g].inputQ[1..]; }
  }

  lemma InputGrows(c: Config, s: State, step: Step, g: nat)
    requires Sized(c, s) && Enabled(c, s, step) && g < c.gpus && step.Enqueue?
    ensures Apply(c, s, step).gpus[g].inputQ == s.gpus[g].inputQ + Miss(s, step, g)
  {
  }

  lemma InputStays(c: Config, s: State, step: Step, g: nat)
    requires Sized(c, s) && Enabled(c, s, step) && g < c.gpus && !step.FetchPop? && !step.Enqueue?
    ensures Apply(c, s, step).gpus[g].inputQ == s.gpus[g].inputQ
  {
  }

  lemma StepExec(c: Config, s: State, step: Step, g: nat)
    requires Sized(c, s) && Enabled(c, s, step) && g < c.gpus
    ensures var t := Apply(c, s, step);
            Names(s.gpus[g].execQ) + Runnable(s, step, g) == StartedBy(c, t, step, g) + Names(t.gpus[g].execQ)
  {
    if step.Enqueue? || step.FetchPush? || step.ExecPop? {
      ExecChanges(c, s, step, g);
    } else {
      ExecStays(c, s, step, g);
    }
  }

  lemma ExecChanges(c: Config, s: State, step: Step, g: nat)
    requires Sized(c, s) && Enabled(c, s, step) && g < c.gpus && (step.Enqueue? || step.FetchPush? || step.ExecPop?)
    ensures var t := Apply(c, s, step);
            Names(s.gpus[g].execQ) + Runnable(s, step, g) == StartedBy(c, t, step, g) + Names(t.gpus[g].execQ)
  {
  }

  lemma ExecStays(c: Config, s: State, step: Step, g: nat)
    requires Sized(c, s) && Enabled(c, s, step) && g < c.gpus && !step.Enqueue? && !step.FetchPush? && !step.ExecPop?
    ensures Apply(c, s, step).gpus[g].execQ == s.gpus[g].execQ
  {
  }

  /** Cutting a step off the front of both sides. */
  lemma Shift(q: seq<nat>, came: seq<nat>, went: seq<nat>, r: seq<nat>, later: seq<nat>, gone: seq<nat>, end: seq<nat>)
    requires q + came == went + r && r + later == gone + end
    ensures q + (came + later) == (went + gone) + end
  {
    assert q + (came + later) == (q + came) + later;
    assert (went + r) + later == went + (r + later);
    assert went + (gone + end) == (went + gone) + end;
  }

  lemma Nothing(a: seq<nat>, b: seq<nat>)
    requires a == []
    ensures a + b == b
  {
  }

  lemma {:induction false} InputFifo(c: Config, s: State, steps: seq<Step>, g: nat)
    requires Sized(c, s) && Run(c, s, steps) && g < c.gpus
    ensures s.gpus[g].inputQ + Misses(c, s, steps, g) == Taken(c, s, steps, g) + After(c, s, steps).gpus[g].inputQ
    decreases |steps|
  {
    if steps != [] {
      var t := Apply(c, s, steps[0]);
      StepInput(c, s, steps[0], g);
      InputFifo(c, t, steps[1..], g);
      Shift(s.gpus[g].inputQ, Miss(s, steps[0], g), TakenBy(t, steps[0], g), t.gpus[g].inputQ,
            Misses(c, t, steps[1..], g), Taken(c, t, steps[1..], g), After(c, s, steps).gpus[g].inputQ);
    }
  }

  lemma {:induction false} ExecFifo(c: Config, s: State, steps: seq<Step>, g: nat)
    requires Sized(c, s) && Run(c, s, steps) && g < c.gpus
    ensures Names(s.gpus[g].execQ) + Runnables(c, s, steps, g) == Started(c, s, steps, g) + Names(After(c, s, steps).gpus[g].execQ)
    decreases |steps|
  {
    if steps != [] {
      var t := Apply(c, s, steps[0]);
      StepExec(c, s, steps[0], g);
      ExecFifo(c, t, steps[1..], g);
      Shift(Names(s.gpus[g].execQ), Runnable(s, steps[0], g), StartedBy(c, t, steps[0], g), Names(t.gpus[g].execQ),
            Runnables(c, t, steps[1..], g), Started(c, t, steps[1..], g), Names(After(c, s, steps).gpus[g].execQ));
    }
  }

  /** Over every run: experts are fetched in the order of their misses and run in the order in which
      they became runnable, and the queues hold the rest. */
  lemma QueuesAreFifo(c: Config, steps: seq<Step>, g: nat)
    requires ConfigOk(c) && Run(c, Init(c), steps) && g < c.gpus
    ensures var s := After(c, Init(c), steps);
            && Misses(c, Init(c), steps, g) == Taken(c, Init(c), steps, g) + s.gpus[g].inputQ
            && Runnables(c, Init(c), steps, g) == Started(c, Init(c), steps, g) + Names(s.gpus[g].execQ)
  {
    InputFifo(c, Init(c), steps, g);
    ExecFifo(c, Init(c), steps, g);
    Nothing(Init(c).gpus[g].inputQ, Misses(c, Init(c), steps, g));
    Nothing(Names(Init(c).gpus[g].execQ), Runnables(c, Init(c), steps, g));
  }

  // ---------------------------------------------------------------- the barrier

  ghost predicate HasToken(s: State, e: nat) { exists p :: Holds(s, e, p) }

  lemma TokenIsActive(c: Config, s: State, h: History, e: nat)
    requires Control(c, s, h)
    ensures HasToken(s, e) <==> e in Active(h)
  {
    if HasToken(s, e) {
      var p :| Holds(s, e, p);
      SpotIsPlace(c, s, h, e, p);
    }
    if e in Active(h) {
      assert ExpertOk(c, s, h, e);
      match h.place[e]
      case InInput(g) =>
        var i :| 0 <= i < |s.gpus[g].inputQ| && s.gpus[g].inputQ[i] == e;
        assert Holds(s, e, InputSlot(g, i));
      case AtFetch(g) => assert Holds(s, e, Fetcher(g));
      case InExec(g) =>
        var i :| 0 <= i < |s.gpus[g].execQ| && s.gpus[g].execQ[i].expert == e;
        assert Holds(s, e, ExecSlot(g, i));
      case OnThread(j) => assert Holds(s, e, Worker(j));
    }
  }

  /** The experts whose token is somewhere. */
  ghost function Outstanding(c: Config, s: State): set<nat> {
    set e | 0 <= e < |c.nodes| && HasToken(s, e)
  }

  /** pending_ is what is still to be enqueued plus what has a token, so the barrier opens exactly
      when every planned expert was enqueued and has finished. */
  lemma PendingIsOutstanding(c: Config, s: State)
    requires ConfigOk(c) && ForwardOk(c) && Reachable(c, s)
    ensures s.pending == |Outstanding(c, s)| + if s.client.InRound? then |s.client.todo| else 0
    ensures s.client.InRound? ==> Outstanding(c, s) <= s.client.plan - s.client.todo
    ensures s.client.InRound? ==> (CanEnd(s) <==> s.client.todo == {} && forall e :: !HasToken(s, e))
  {
    var h := ReachableInv(c, s);
    forall e ensures HasToken(s, e) <==> e in Active(h) {
      if e >= 0 { TokenIsActive(c, s, h, e); }
    }
    assert Outstanding(c, s) == Active(h);
  }

  // ---------------------------------------------------------------- the branch of a fetch thread

  /** No room for the expert in hand, and many tokens where it waits for the slot, one where it
      waits for a victim. */
  ghost predicate BranchOk(c: Config, s: State, g: nat)
    requires Sized(c, s) && g < c.gpus
  {
    var u := s.gpus[g];
    u.fetch.FetchBusy? && u.fetch.expert < |c.nodes| ==>
      match u.fetch.stage
      case NeedSlot => |s.inputs.hidden| > 1 && u.room < c.nodes[u.fetch.expert].size
      case NeedVictim => |s.inputs.hidden| <= 1 && u.room < c.nodes[u.fetch.expert].size
      case HasVictim(_) => |s.inputs.hidden| <= 1 && u.room < c.nodes[u.fetch.expert].size
      case _ => true
  }

  lemma RestingIsFree(c: Config, s: State, h: History, g: nat)
    requires Inv(c, s, h) && s.client.Resting? && g < c.gpus
    ensures s.gpus[g].fetch.FetchFree?
  {
    forall e | 0 <= e < |c.nodes| ensures h.place[e] == Nowhere { assert e !in Active(h); }
    assert GpuOk(c, s, h, g);
  }

  lemma DecisionBranch(c: Config, s: State, step: Step, g: nat)
    requires Sized(c, s) && Enabled(c, s, step) && g < c.gpus && BranchOk(c, s, g)
    requires step.FetchPop? || step.FetchTakeSlot? || step.FetchSelect? || step.FetchEvict?
    ensures BranchOk(c, Apply(c, s, step), g)
  {
  }

  lemma OtherBranch(c: Config, s: State, step: Step, g: nat)
    requires Sized(c, s) && Enabled(c, s, step) && g < c.gpus && BranchOk(c, s, g)
    requires !step.BeginRound? && !step.FetchPop? && !step.FetchTakeSlot? && !step.FetchSelect? && !step.FetchEvict?
    ensures BranchOk(c, Apply(c, s, step), g)
  {
  }

  lemma StepBranch(c: Config, s: State, h: History, step: Step, g: nat)
    requires Inv(c, s, h) && Enabled(c, s, step) && g < c.gpus && BranchOk(c, s, g)
    ensures BranchOk(c, Apply(c, s, step), g)
  {
    if step.BeginRound? {
      RestingIsFree(c, s, h, g);
    } else if step.FetchPop? || step.FetchTakeSlot? || step.FetchSelect? || step.FetchEvict? {
      DecisionBranch(c, s, step, g);
    } else {
      OtherBranch(c, s, step, g);
    }
  }

  lemma {:induction false} RunBranch(c: Config, s: State, h: History, steps: seq<Step>, g: nat)
    requires Inv(c, s, h) && AtomicRun(c, s, steps) && Run(c, s, steps) && g < c.gpus && BranchOk(c, s, g)
    ensures BranchOk(c, After(c, s, steps), g)
    decreases |steps|
  {
    if steps != [] {
      StepBranch(c, s, h, steps[0], g);
      var k := StepKeepsInv(c, s, h, steps[0]);
      RunBranch(c, Apply(c, s, steps[0]), k, steps[1..], g);
    }
  }

  /** A fetch thread waits only without room: for the overload slot in a prefill, for a victim in a
      round of one token. */
  lemma BranchIsByBatch(c: Config, s: State, g: nat)
    requires ConfigOk(c) && ForwardOk(c) && Reachable(c, s) && g < c.gpus
    ensures Sized(c, s) && BranchOk(c, s, g)
  {
    var steps :| AtomicRun(c, Init(c), steps) && Run(c, Init(c), steps) && After(c, Init(c), steps) == s;
    InitInv(c);
    RunBranch(c, Init(c), NoHistory(c), steps, g);
  }

  // ---------------------------------------------------------------- who gives the slot back

  /** The token at p will clear the overload flag of device g. */
  ghost predicate Clears(c: Config, s: State, p: Spot, g: nat)
    requires Sized(c, s)
  {
    match p
    case InputSlot(_, _) => false
    case Fetcher(f) => f == g < |s.gpus| && (FetchAt(s, g, Ready) || FetchAt(s, g, Moved))
    case ExecSlot(f, i) => f == g < |s.gpus| && i < |s.gpus[g].execQ| && s.gpus[g].execQ[i].evict
    case Worker(j) => Evicting(s, j) && c.threadGpu[j] == g
  }

  /** Where experts can be exchanged: an exec token is marked evict exactly if the cache does not
      count its expert, and a set overload flag has a token that will clear it. */
  lemma SlotIsGivenBack(c: Config, s: State, g: nat)
    requires ConfigOk(c) && ForwardOk(c) && Reachable(c, s) && g < c.gpus && Swap(c, g)
    ensures Sized(c, s) && forall i :: 0 <= i < |s.gpus[g].execQ| ==>
              (s.gpus[g].execQ[i].evict <==> s.gpus[g].execQ[i].expert !in s.gpus[g].cached)
    ensures s.gpus[g].overload ==> exists e: nat, p: Spot :: Holds(s, e, p) && Clears(c, s, p, g) && e !in s.gpus[g].cached
    ensures forall j: nat :: Evicting(s, j) && c.threadGpu[j] == g ==> s.gpus[g].overload
  {
    var h := ReachableSlots(c, s, g);
    var u := s.gpus[g];
    forall i | 0 <= i < |u.execQ| ensures u.execQ[i].evict <==> u.execQ[i].expert !in u.cached {
      ExecCounted(c, s, h, g, i);
    }
    if u.overload { OwnerClears(c, s, h, g); }
    forall j: nat | Evicting(s, j) && c.threadGpu[j] == g ensures u.overload { assert WorkerOk(c, s, h, g, j); }
  }

  lemma ExecCounted(c: Config, s: State, h: History, g: nat, i: nat)
    requires Inv(c, s, h) && Slots(c, s, h, g) && i < |s.gpus[g].execQ|
    ensures s.gpus[g].execQ[i].evict <==> s.gpus[g].execQ[i].expert !in s.gpus[g].cached
  {
    var e := s.gpus[g].execQ[i].expert;
    assert GpuOk(c, s, h, g);
    assert PlacedAt(c, h, e, InExec(g));
    assert ExpertOk(c, s, h, e);
    assert ResidentOk(c, s, h, g, e);
  }

  lemma OwnerClears(c: Config, s: State, h: History, g: nat)
    requires Inv(c, s, h) && Slots(c, s, h, g) && s.gpus[g].overload
    ensures exists e: nat, p: Spot :: Holds(s, e, p) && Clears(c, s, p, g) && e !in s.gpus[g].cached
  {
    var e := h.owner[g].value;
    assert ExpertOk(c, s, h, e);
    match h.place[e]
    case AtFetch(_) => assert Holds(s, e, Fetcher(g)) && Clears(c, s, Fetcher(g), g);
    case InExec(_) =>
      var i :| 0 <= i < |s.gpus[g].execQ| && s.gpus[g].execQ[i].expert == e;
      assert Holds(s, e, ExecSlot(g, i)) && Clears(c, s, ExecSlot(g, i), g);
    case OnThread(j) => assert Holds(s, e, Worker(j)) && Clears(c, s, Worker(j), g);
  }

  // ---------------------------------------------------------------- a whole round

  predicate NoBegin(steps: seq<Step>) { forall i :: 0 <= i < |steps| ==> !steps[i].BeginRound? }

  /** Between two calls of SetInputs the inputs and the plan stay. */
  lemma {:induction false} RoundKept(c: Config, s: State, steps: seq<Step>)
    requires Sized(c, s) && Run(c, s, steps) && NoBegin(steps)
    ensures var t := After(c, s, steps);
            t.inputs == s.inputs && (t.client.InRound? ==> s.client.InRound? && t.client.plan == s.client.plan)
    decreases |steps|
  {
    if steps != [] {
      StepKeepsRound(c, s, steps[0]);
      RoundKept(c, Apply(c, s, steps[0]), steps[1..]);
    }
  }

  lemma StepKeepsRound(c: Config, s: State, step: Step)
    requires Sized(c, s) && Enabled(c, s, step) && !step.BeginRound?
    ensures var t := Apply(c, s, step);
            t.inputs == s.inputs && (t.client.InRound? ==> s.client.InRound? && t.client.plan == s.client.plan)
  {
  }

  lemma {:induction false} RunFromReachable(c: Config, s: State, steps: seq<Step>)
    requires ConfigOk(c) && Reachable(c, s) && Sized(c, s) && AtomicRun(c, s, steps) && Run(c, s, steps)
    ensures Reachable(c, After(c, s, steps))
    decreases |steps|
  {
    if steps != [] {
      ReachableStep(c, s, steps[0]);
      RunFromReachable(c, Apply(c, s, steps[0]), steps[1..]);
    }
  }

  /** A round begun in any reachable state with inputs x and plan `plan`, whatever interleaving
      follows: when the barrier opens, the result is the weighted sum for x over `plan`. */
  lemma RoundResult(c: Config, s: State, x: Inputs, plan: set<nat>, steps: seq<Step>, r: nat, k: nat)
    requires ConfigOk(c) && ForwardOk(c) && Sized(c, s) && Reachable(c, s) && CanBegin(c, s, x, plan)
    requires var b := Apply(c, s, BeginRound(x, plan)); AtomicRun(c, b, steps) && Run(c, b, steps) && NoBegin(steps)
    requires CanEnd(After(c, Apply(c, s, BeginRound(x, plan)), steps))
    ensures var t := After(c, Apply(c, s, BeginRound(x, plan)), steps);
            && MatrixOk(t.acc, |x.hidden|, c.dim)
            && (r < |x.hidden| && k < c.dim ==> t.acc[r][k] == Total(plan, |c.nodes|, Summand(c, x, r, k)))
  {
    var b := Apply(c, s, BeginRound(x, plan));
    ReachableStep(c, s, BeginRound(x, plan));
    RunFromReachable(c, b, steps);
    RoundKept(c, b, steps);
    OutputIsWeightedSum(c, After(c, b, steps), r, k);
  }
}
