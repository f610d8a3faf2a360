/**
 * When the dispatcher is free of faults without any assumption on its timing: exactly when no
 * device ever evicts, that is, when on each device all experts fit together or none fits alone.
 */
module DispatcherFaults {
  import opened DispatcherModel
  import opened DispatcherInvariant
  import opened DispatcherSlots
  import opened DispatcherTheorems
  import opened DispatcherRoom
  import opened DispatcherLoss

  /** A state some run reaches, whether or not it keeps the named assumption. */
  ghost predicate Possible(c: Config, s: State)
    requires ConfigOk(c)
  {
    exists steps :: Run(c, Init(c), steps) && After(c, Init(c), steps) == s
  }

  lemma {:induction false} PlainSnoc(c: Config, s: State, steps: seq<Step>, step: Step)
    requires Sized(c, s) && Run(c, s, steps) && Enabled(c, After(c, s, steps), step)
    ensures Run(c, s, steps + [step]) && After(c, s, steps + [step]) == Apply(c, After(c, s, steps), step)
    decreases |steps|
  {
    if steps == [] {
      assert steps + [step] == [step] && [step][1..] == [];
    } else {
      assert (steps + [step])[1..] == steps[1..] + [step] && (steps + [step])[0] == steps[0];
      PlainSnoc(c, Apply(c, s, steps[0]), steps[1..], step);
    }
  }

  lemma PossibleStep(c: Config, s: State, step: Step)
    requires ConfigOk(c) && Possible(c, s) && Sized(c, s) && Enabled(c, s, step)
    ensures Possible(c, Apply(c, s, step))
  {
    var steps :| Run(c, Init(c), steps) && After(c, Init(c), steps) == s;
    PlainSnoc(c, Init(c), steps, step);
  }

  // ---------------------------------------------------------------- the condition

  function FirstExperts(n: nat): (r: set<nat>)
    ensures forall e :: e in r <==> 0 <= e < n
  {
    if n == 0 then {} else FirstExperts(n - 1) + {n - 1}
  }

  function Everything(c: Config): set<nat> { FirstExperts(|c.nodes|) }

  predicate HasThread(c: Config, g: nat) {
    exists j :: 0 <= j < |c.threadGpu| && c.threadGpu[j] == g
  }

  /** All experts fit device g together. */
  ghost predicate AllFit(c: Config, g: nat)
    requires g < |c.limit|
  {
    Bytes(c, Everything(c), |c.nodes|) <= c.limit[g]
  }

  /** No expert fits device g even alone. */
  predicate NoneFit(c: Config, g: nat)
    requires g < |c.limit|
  {
    forall e :: 0 <= e < |c.nodes| ==> c.nodes[e].size > c.limit[g]
  }

  ghost predicate NeverFull(c: Config)
    requires ConfigOk(c)
  {
    forall g: nat :: g < c.gpus ==> AllFit(c, g) || NoneFit(c, g)
  }

  lemma {:induction false} BytesMonotone(c: Config, a: set<nat>, b: set<nat>, n: nat)
    requires n <= |c.nodes| && forall e: nat :: e < n && e in a ==> e in b
    ensures Bytes(c, a, n) <= Bytes(c, b, n)
  {
    if n > 0 { BytesMonotone(c, a, b, n - 1); }
  }

  lemma BytesMember(c: Config, a: set<nat>, e: nat)
    requires e in a && e < |c.nodes|
    ensures c.nodes[e].size <= Bytes(c, a, |c.nodes|)
  {
    BytesRemove(c, a, e);
  }

  // ---------------------------------------------------------------- enough

  lemma NeverFullSwaps(c: Config, g: nat)
    requires g < |c.limit| && (AllFit(c, g) || NoneFit(c, g))
    ensures Swap(c, g)
  {
    forall group: set<nat>, v: nat, e: nat ensures SwapFits(c, g, group, v, e) {
      if v in group && v < |c.nodes| && e !in group && e < |c.nodes| {
        BytesMember(c, group, v);
        BytesAdd(c, group, |c.nodes|, e);
        BytesMonotone(c, group + {e}, Everything(c), |c.nodes|);
      }
    }
  }

  /** Under the condition no victim is ever chosen. */
  lemma NoVictim(c: Config, s: State, g: nat)
    requires ConfigOk(c) && ForwardOk(c) && Reachable(c, s) && g < c.gpus && (AllFit(c, g) || NoneFit(c, g))
    ensures g < |s.gpus| && !(s.gpus[g].fetch.FetchBusy? && s.gpus[g].fetch.stage.HasVictim?)
  {
    NeverFullSwaps(c, g);
    CacheAccounting(c, s, g);
    RoomIsConserved(c, s, g);
    var u := s.gpus[g];
    if u.fetch.FetchBusy? && u.fetch.stage.HasVictim? {
      var h := ReachableSlots(c, s, g);
      assert GpuOk(c, s, h, g) && SlotOk(c, s, h, g);
      BytesMember(c, u.cached, u.fetch.stage.victim);
      TokenDevice(c, s, u.fetch.expert, Fetcher(g));
      BytesAdd(c, u.cached, |c.nodes|, u.fetch.expert);
      BytesMonotone(c, u.cached + {u.fetch.expert}, Everything(c), |c.nodes|);
    }
  }

  /** So every run keeps the named assumption. */
  lemma {:induction false} RunIsReachable(c: Config, s: State, steps: seq<Step>)
    requires ConfigOk(c) && ForwardOk(c) && NeverFull(c) && Sized(c, s) && Reachable(c, s) && Run(c, s, steps)
    ensures Reachable(c, After(c, s, steps))
    decreases |steps|
  {
    if steps != [] {
      forall g: nat | g < c.gpus ensures !(s.gpus[g].fetch.FetchBusy? && s.gpus[g].fetch.stage.HasVictim?) { NoVictim(c, s, g); }
      assert EvictionIsAtomic(s, steps[0]);
      ReachableStep(c, s, steps[0]);
      RunIsReachable(c, Apply(c, s, steps[0]), steps[1..]);
    }
  }

  lemma StartIsReachable(c: Config)
    requires ConfigOk(c)
    ensures Reachable(c, Init(c))
  {
    assert AtomicRun(c, Init(c), []) && Run(c, Init(c), []) && After(c, Init(c), []) == Init(c);
  }

  // ---------------------------------------------------------------- needed

  /** A group that fits with v in it, and an expert that does not fit beside it. */
  lemma {:induction false} FullGroup(c: Config, g: nat, group: set<nat>) returns (full: set<nat>, e: nat)
    requires g < |c.limit| && !AllFit(c, g) && Bytes(c, group, |c.nodes|) <= c.limit[g]
    requires forall x :: x in group ==> x < |c.nodes|
    ensures group <= full && (forall x :: x in full ==> x < |c.nodes|) && Bytes(c, full, |c.nodes|) <= c.limit[g]
    ensures e < |c.nodes| && e !in full && Bytes(c, full, |c.nodes|) + c.nodes[e].size > c.limit[g]
    decreases |Everything(c) - group|
  {
    if Everything(c) <= group {
      BytesMonotone(c, Everything(c), group, |c.nodes|);
    }
    var x :| x in Everything(c) && x !in group;
    BytesAdd(c, group, |c.nodes|, x);
    if Bytes(c, group, |c.nodes|) + c.nodes[x].size > c.limit[g] {
      full, e := group, x;
    } else {
      assert Everything(c) - (group + {x}) < Everything(c) - group;
      full, e := FullGroup(c, g, group + {x});
    }
  }

  lemma BothRoute(c: Config, e: nat, v: nat)
    requires e < |c.nodes| && v < |c.nodes|
    ensures PlanOk(c, OneToken(c), {e, v})
  {
    OneTokenRoutes(c, e);
    OneTokenRoutes(c, v);
  }

  lemma BeginBoth(c: Config, s: State, g: nat, j: nat, group: set<nat>, e: nat, v: nat) returns (t: State)
    requires ConfigOk(c) && Reachable(c, s) && g < c.gpus && Rest(c, s, g, j, group)
    requires v < |c.nodes| && e < |c.nodes| && e !in group
    ensures Reachable(c, t) && t.inputs == OneToken(c) && t.client == InRound({e, v}, {e, v})
    ensures At(c, t, g, j, group, e, Expert(Idle, Host, 0), Calm(c, g, group), ExecFree)
  {
    BothRoute(c, e, v);
    t := DoBegin(c, s, OneToken(c), {e, v});
    ReachableStep(c, s, BeginRound(OneToken(c), {e, v}));
  }

  /** Ask for e and v in one round of one token; e is enqueued and popped. */
  lemma AskBoth(c: Config, s: State, g: nat, j: nat, group: set<nat>, e: nat, v: nat) returns (t: State)
    requires ConfigOk(c) && Reachable(c, s) && g < c.gpus && Rest(c, s, g, j, group)
    requires v in group && v < |c.nodes| && e < |c.nodes| && e !in group
    requires c.limit[g] < Bytes(c, group, |c.nodes|) + c.nodes[e].size
    ensures Reachable(c, t) && t.inputs == OneToken(c) && t.client == InRound({e, v}, {v})
    ensures At(c, t, g, j, group, e, Expert(Fetching, Host, 0), Calm(c, g, group).(fetch := FetchBusy(e, NeedVictim)), ExecFree)
  {
    var a := BeginBoth(c, s, g, j, group, e, v);
    assert NotSelected(a, e) && {e, v} - {e} == {v};
    var b := DoEnqueue(c, a, e, g);
    ReachableStep(c, a, Enqueue(e, g));
    assert b.gpus[g].inputQ == [e];
    t := DoPop(c, b, g);
    ReachableStep(c, b, FetchPop(g));
  }

  /** Load the group, ask for both, and choose v as the victim for e. */
  lemma ChooseVictim(c: Config, g: nat, j: nat, group: set<nat>, e: nat, v: nat) returns (t: State)
    requires ConfigOk(c) && ForwardOk(c) && g < c.gpus && j < |c.threadGpu| && c.threadGpu[j] == g
    requires (forall x :: x in group ==> x < |c.nodes|) && v in group && e < |c.nodes| && e !in group
    requires Bytes(c, group, |c.nodes|) <= c.limit[g] < Bytes(c, group, |c.nodes|) + c.nodes[e].size
    ensures Sized(c, t) && Reachable(c, t) && CanEvict(c, t, g) && t.gpus[g].fetch.stage == HasVictim(v) && CanEnqueue(c, t, v, g)
    ensures t.gpus[g].execQ == [] && t.threads[j] == ExecFree && t.inputs == OneToken(c) && t.experts[v] == Expert(Idle, Cuda(g), 1)
  {
    var s := LoadAll(c, g, j, group);
    var d := AskBoth(c, s, g, j, group, e, v);
    assert LeastVisited(c, d, g, v);
    t := DoSelect(d, g, v);
    ReachableStep(c, d, FetchSelect(g, v));
  }

  /** Then enqueue v before its eviction, evict it, and run it. */
  lemma FaultyRun(c: Config, g: nat, j: nat, group: set<nat>, e: nat, v: nat) returns (t: State)
    requires ConfigOk(c) && ForwardOk(c) && g < c.gpus && j < |c.threadGpu| && c.threadGpu[j] == g
    requires (forall x :: x in group ==> x < |c.nodes|) && v in group && e < |c.nodes| && e !in group
    requires Bytes(c, group, |c.nodes|) <= c.limit[g] < Bytes(c, group, |c.nodes|) + c.nodes[e].size
    ensures Possible(c, t) && t.fault
  {
    var s := ChooseVictim(c, g, j, group, e, v);
    var steps :| AtomicRun(c, Init(c), steps) && Run(c, Init(c), steps) && After(c, Init(c), steps) == s;
    var a := DoEnqueue(c, s, v, g);
    PossibleStep(c, s, Enqueue(v, g));
    EnqueueCondemns(c, s, g, v, g);
    EvictLoses(c, a, g, v);
    var b := DoEvict(c, a, g);
    PossibleStep(c, a, FetchEvict(g));
    assert b.gpus[g].execQ == [ExecArgs(v, false)];
    t := RunLost(c, b, g, j, v);
  }

  lemma RunLost(c: Config, s: State, g: nat, j: nat, v: nat) returns (t: State)
    requires ConfigOk(c) && Possible(c, s) && Lost(c, s, g, v) && g < c.gpus && j < |c.threadGpu| && c.threadGpu[j] == g
    requires s.gpus[g].execQ == [ExecArgs(v, false)] && s.threads[j] == ExecFree && s.inputs == OneToken(c)
    ensures Possible(c, t) && t.fault
  {
    OneTokenRoutes(c, v);
    var a := DoExecPop(c, s, j);
    PossibleStep(c, s, ExecPop(j));
    PopKeepsWaiting(c, s, g, v, j);
    t := DoForward(c, a, j);
    PossibleStep(c, a, ExecForward(j));
    LostForward(c, a, g, v, j);
  }

  // ---------------------------------------------------------------- both

  /** With an exec thread on every device, every run is free of faults, whatever its timing, exactly
      when on each device all experts fit together or none fits alone. */
  lemma FaultFreeIff(c: Config)
    requires ConfigOk(c) && ForwardOk(c)
    requires forall g: nat :: g < c.gpus ==> HasThread(c, g)
    ensures (forall s :: Possible(c, s) ==> !s.fault) <==> NeverFull(c)
  {
    if NeverFull(c) {
      forall s | Possible(c, s) ensures !s.fault {
        var steps :| Run(c, Init(c), steps) && After(c, Init(c), steps) == s;
        StartIsReachable(c);
        RunIsReachable(c, Init(c), steps);
        NoFaults(c, s, 0);
      }
    } else {
      var g: nat :| g < c.gpus && !AllFit(c, g) && !NoneFit(c, g);
      assert HasThread(c, g);
      var j: nat :| j < |c.threadGpu| && c.threadGpu[j] == g;
      var v: nat :| v < |c.nodes| && c.nodes[v].size <= c.limit[g];
      BytesAdd(c, {}, |c.nodes|, v);
      BytesEmpty(c, |c.nodes|);
      assert {} + {v} == {v};
      var group, e := FullGroup(c, g, {v});
      var t := FaultyRun(c, g, j, group, e, v);
    }
  }

  /** One device with room for one of two experts of one byte. */
  lemma TwoExpertsRace(c: Config)
    requires ConfigOk(c) && ForwardOk(c) && c.gpus == 1 && c.limit == [1] && c.threadGpu == [0]
    requires |c.nodes| == 2 && c.nodes[0].size == 1 && c.nodes[1].size == 1
    ensures exists s :: Possible(c, s) && s.fault
  {
    assert Bytes(c, {0}, 0) == 0 && Bytes(c, {0}, 1) == 1 && Bytes(c, {0}, 2) == 1;
    var t := FaultyRun(c, 0, 0, {0}, 1, 0);
  }
}
