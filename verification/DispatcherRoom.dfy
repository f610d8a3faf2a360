/**
 * When the room of a device stays non-negative: exactly when no exchange of one expert
 * passes its limit.
 *
 * If some exchange does, the runs below load the fitting set in rounds of one token and then
 * ask for the larger expert, which evicts the smaller one and overdraws the room.
 */
module DispatcherRoom {
  import opened DispatcherModel
  import opened DispatcherInvariant
  import opened DispatcherSlots
  import opened DispatcherTheorems

  // ---------------------------------------------------------------- a round of one token

  /** More than every column in use. */
  function Width(c: Config, n: nat): nat
    requires n <= |c.nodes|
    ensures forall e :: 0 <= e < n ==> c.nodes[e].column < Width(c, n)
  {
    if n == 0 then 0
    else if c.nodes[n - 1].column < Width(c, n - 1) then Width(c, n - 1)
    else c.nodes[n - 1].column + 1
  }

  /** One token that selects every expert. */
  function OneToken(c: Config): Inputs {
    Inputs([ZeroRow(c.dim)], [seq(Width(c, |c.nodes|), _ => true)], [seq(Width(c, |c.nodes|), _ => 0.0)])
  }

  lemma OneTokenRoutes(c: Config, e: nat)
    requires e < |c.nodes|
    ensures InputsOk(c, OneToken(c)) && PlanOk(c, OneToken(c), {e})
    ensures |InputRows(c, OneToken(c), e)| == 1
  {
    var x, col := OneToken(c), c.nodes[e].column;
    assert InputsOk(c, x);
    assert Selected(x.mask, col, 0) == [];
    assert Selected(x.mask, col, 1) == [0];
  }

  // ---------------------------------------------------------------- where a round stands

  /** An expert at rest: fetched once onto device g if it is in the group, else never fetched. */
  function Settled(g: nat, group: set<nat>, e: nat): Expert {
    if e in group then Expert(Idle, Cuda(g), 1) else Expert(Idle, Host, 0)
  }

  /** Expert x is in state `xs`, device g in state `u`, thread j in state `th`; nothing else moves. */
  ghost predicate At(c: Config, s: State, g: nat, j: nat, group: set<nat>, x: nat, xs: Expert, u: Gpu, th: ExecPc) {
    && Sized(c, s) && g < c.gpus && j < |c.threadGpu| && c.threadGpu[j] == g && x < |c.nodes|
    && s.gpus[g] == u && s.threads[j] == th && s.experts[x] == xs
    && (forall i :: 0 <= i < c.gpus && i != g ==> s.gpus[i].fetch.FetchFree?)
    && (forall e :: 0 <= e < |c.nodes| && e != x ==> s.experts[e] == Settled(g, group, e))
  }

  ghost predicate InRoundOf(c: Config, s: State, x: nat) {
    && s.client == InRound({x}, {}) && s.pending == 1
    && s.inputs == OneToken(c) && MatrixOk(s.acc, 1, c.dim)
  }

  /** Device g with the group cached and nothing going on. */
  ghost function Calm(c: Config, g: nat, group: set<nat>): Gpu
    requires g < |c.limit|
  {
    Gpu([], FetchFree, [], c.limit[g] - Bytes(c, group, |c.nodes|), group, false)
  }

  /** Between rounds, with the group loaded. */
  ghost predicate Rest(c: Config, s: State, g: nat, j: nat, group: set<nat>)
    requires ConfigOk(c) && g < c.gpus
  {
    && Sized(c, s) && j < |c.threadGpu| && c.threadGpu[j] == g && s.client == Resting
    && s.gpus[g] == Calm(c, g, group) && s.threads[j] == ExecFree
    && (forall i :: 0 <= i < c.gpus && i != g ==> s.gpus[i].fetch.FetchFree?)
    && (forall e :: 0 <= e < |c.nodes| ==> s.experts[e] == Settled(g, group, e))
  }

  /** BeginRound. */
  lemma Begin(c: Config, s: State, g: nat, j: nat, group: set<nat>, x: nat) returns (t: State)
    requires ConfigOk(c) && Reachable(c, s) && g < c.gpus && Rest(c, s, g, j, group) && x < |c.nodes| && x !in group
    ensures Reachable(c, t) && t.client == InRound({x}, {x}) && t.pending == 1
    ensures t.inputs == OneToken(c) && MatrixOk(t.acc, 1, c.dim)
    ensures At(c, t, g, j, group, x, Expert(Idle, Host, 0), Calm(c, g, group), ExecFree)
  {
    OneTokenRoutes(c, x);
    t := DoBegin(c, s, OneToken(c), {x});
    ReachableStep(c, s, BeginRound(OneToken(c), {x}));
  }

  /** BeginRound, Enqueue, FetchPop. */
  lemma Ask(c: Config, s: State, g: nat, j: nat, group: set<nat>, x: nat) returns (t: State)
    requires ConfigOk(c) && Reachable(c, s) && g < c.gpus && Rest(c, s, g, j, group) && x < |c.nodes| && x !in group
    ensures Reachable(c, t) && InRoundOf(c, t, x)
    ensures var stage := if Calm(c, g, group).room < c.nodes[x].size then NeedVictim else Ready;
            At(c, t, g, j, group, x, Expert(Fetching, Host, 0), Calm(c, g, group).(fetch := FetchBusy(x, stage)), ExecFree)
  {
    var a := Begin(c, s, g, j, group, x);
    assert NotSelected(a, x) && {x} - {x} == {};
    var b := DoEnqueue(c, a, x, g);
    ReachableStep(c, a, Enqueue(x, g));
    assert b.gpus[g].inputQ == [x];
    t := DoPop(c, b, g);
    ReachableStep(c, b, FetchPop(g));
  }

  /** FetchAccount, FetchPush. */
  lemma Fetch(c: Config, s: State, g: nat, j: nat, group: set<nat>, x: nat, u: Gpu) returns (t: State)
    requires ConfigOk(c) && Reachable(c, s) && InRoundOf(c, s, x)
    requires At(c, s, g, j, group, x, Expert(Fetching, Host, 0), u, ExecFree)
    requires u.fetch == FetchBusy(x, Ready) && u.execQ == [] && !u.overload
    ensures Reachable(c, t) && InRoundOf(c, t, x)
    ensures At(c, t, g, j, group, x, Expert(Fetching, Cuda(g), 1),
               Gpu(u.inputQ, FetchFree, [ExecArgs(x, false)], u.room - c.nodes[x].size, u.cached + {x}, false), ExecFree)
  {
    var a := DoAccount(c, s, g);
    ReachableStep(c, s, FetchAccount(g));
    t := DoPush(a, g);
    ReachableStep(c, a, FetchPush(g));
    assert [] + [ExecArgs(x, false)] == [ExecArgs(x, false)];
  }

  function Out(c: Config, x: nat): seq<Row>
    requires x < |c.nodes| && InputsOk(c, OneToken(c))
  {
    ForwardRows(c, x, InputRows(c, OneToken(c), x))
  }

  /** ExecPop, ExecForward. */
  lemma Compute(c: Config, s: State, g: nat, j: nat, group: set<nat>, x: nat, u: Gpu) returns (t: State)
    requires ConfigOk(c) && Reachable(c, s) && InRoundOf(c, s, x) && InputsOk(c, OneToken(c))
    requires At(c, s, g, j, group, x, Expert(Fetching, Cuda(g), 1), u, ExecFree) && u.execQ == [ExecArgs(x, false)]
    ensures Reachable(c, t) && InRoundOf(c, t, x)
    ensures At(c, t, g, j, group, x, Expert(Fetching, Cuda(g), 1), u.(execQ := []), ExecBusy(ExecArgs(x, false), Computed, Out(c, x)))
  {
    OneTokenRoutes(c, x);
    assert u.execQ[1..] == [];
    var a := DoExecPop(c, s, j);
    ReachableStep(c, s, ExecPop(j));
    t := DoForward(c, a, j);
    ReachableStep(c, a, ExecForward(j));
  }

  /** ExecIdle, ExecAccumulate. */
  lemma Publish(c: Config, s: State, g: nat, j: nat, group: set<nat>, x: nat, u: Gpu) returns (t: State)
    requires ConfigOk(c) && ForwardOk(c) && Reachable(c, s) && InRoundOf(c, s, x) && InputsOk(c, OneToken(c)) && x < |c.nodes|
    requires At(c, s, g, j, group, x, Expert(Fetching, Cuda(g), 1), u, ExecBusy(ExecArgs(x, false), Computed, Out(c, x)))
    ensures Reachable(c, t) && InRoundOf(c, t, x)
    ensures At(c, t, g, j, group, x, Expert(Idle, Cuda(g), 1), u, ExecBusy(ExecArgs(x, false), Accumulated, Out(c, x)))
  {
    OneTokenRoutes(c, x);
    var a := DoIdle(c, s, j);
    ReachableStep(c, s, ExecIdle(j));
    assert OutputOk(c, a.inputs, x, Out(c, x));
    t := DoAccumulate(c, a, j);
    ReachableStep(c, a, ExecAccumulate(j));
  }

  /** ExecFinish, EndRound. */
  lemma Close(c: Config, s: State, g: nat, j: nat, group: set<nat>, x: nat, u: Gpu) returns (t: State)
    requires ConfigOk(c) && Reachable(c, s) && InRoundOf(c, s, x) && InputsOk(c, OneToken(c)) && x < |c.nodes|
    requires At(c, s, g, j, group, x, Expert(Idle, Cuda(g), 1), u, ExecBusy(ExecArgs(x, false), Accumulated, Out(c, x)))
    ensures Reachable(c, t) && t.client == Resting
    ensures At(c, t, g, j, group, x, Expert(Idle, Cuda(g), 1), u, ExecFree)
  {
    var a := DoFinish(s, j);
    ReachableStep(c, s, ExecFinish(j));
    t := a.(client := Resting);
    ReachableStep(c, a, EndRound);
  }

  /** From the exec token to the end of the round. */
  lemma RunOut(c: Config, s: State, g: nat, j: nat, group: set<nat>, x: nat, u: Gpu) returns (t: State)
    requires ConfigOk(c) && ForwardOk(c) && Reachable(c, s) && InRoundOf(c, s, x)
    requires At(c, s, g, j, group, x, Expert(Fetching, Cuda(g), 1), u, ExecFree) && u.execQ == [ExecArgs(x, false)]
    ensures Reachable(c, t) && t.client == Resting
    ensures At(c, t, g, j, group, x, Expert(Idle, Cuda(g), 1), u.(execQ := []), ExecFree)
  {
    OneTokenRoutes(c, x);
    t := Compute(c, s, g, j, group, x, u);
    t := Publish(c, t, g, j, group, x, u.(execQ := []));
    t := Close(c, t, g, j, group, x, u.(execQ := []));
  }

  lemma Rested(c: Config, s: State, g: nat, j: nat, group: set<nat>, x: nat)
    requires ConfigOk(c) && g < c.gpus && x !in group && s.client == Resting
    requires At(c, s, g, j, group, x, Expert(Idle, Cuda(g), 1), Calm(c, g, group + {x}), ExecFree)
    ensures Rest(c, s, g, j, group + {x})
  {
  }

  /** One expert more in the cache. */
  lemma LoadOne(c: Config, s: State, g: nat, j: nat, group: set<nat>, x: nat) returns (t: State)
    requires ConfigOk(c) && ForwardOk(c) && Reachable(c, s) && g < c.gpus && Rest(c, s, g, j, group)
    requires x < |c.nodes| && x !in group && Bytes(c, group + {x}, |c.nodes|) <= c.limit[g]
    ensures Reachable(c, t) && Rest(c, t, g, j, group + {x})
  {
    BytesAdd(c, group, |c.nodes|, x);
    var u := Calm(c, g, group).(fetch := FetchBusy(x, Ready));
    var v := Calm(c, g, group + {x}).(execQ := [ExecArgs(x, false)]);
    t := Ask(c, s, g, j, group, x);
    t := Fetch(c, t, g, j, group, x, u);
    t := RunOut(c, t, g, j, group, x, v);
    Rested(c, t, g, j, group, x);
  }

  lemma {:induction false} LoadAll(c: Config, g: nat, j: nat, group: set<nat>) returns (t: State)
    requires ConfigOk(c) && ForwardOk(c) && g < c.gpus && j < |c.threadGpu| && c.threadGpu[j] == g
    requires (forall e :: e in group ==> e < |c.nodes|) && Bytes(c, group, |c.nodes|) <= c.limit[g]
    ensures Reachable(c, t) && Rest(c, t, g, j, group)
    decreases |group|
  {
    if group == {} {
      t := Init(c);
      BytesEmpty(c, |c.nodes|);
      assert AtomicRun(c, t, []) && Run(c, t, []) && After(c, t, []) == t;
    } else {
      var x :| x in group;
      BytesRemove(c, group, x);
      t := LoadAll(c, g, j, group - {x});
      assert group - {x} + {x} == group;
      t := LoadOne(c, t, g, j, group - {x}, x);
    }
  }

  /** A fitting set with an exchange that passes the limit gives a run that overdraws the room:
      load the set, then ask for the newcomer. */
  lemma OverdrawnRun(c: Config, g: nat, j: nat, group: set<nat>, v: nat, e: nat) returns (t: State)
    requires ConfigOk(c) && ForwardOk(c) && g < c.gpus && j < |c.threadGpu| && c.threadGpu[j] == g
    requires (forall x :: x in group ==> x < |c.nodes|) && !SwapFits(c, g, group, v, e)
    ensures Reachable(c, t) && t.gpus[g].room < 0
  {
    var s := LoadAll(c, g, j, group);
    var a := Ask(c, s, g, j, group, e);
    var u := Calm(c, g, group);
    assert LeastVisited(c, a, g, v);
    var b := DoSelect(a, g, v);
    ReachableStep(c, a, FetchSelect(g, v));
    var d := DoEvict(c, b, g);
    ReachableStep(c, b, FetchEvict(g));
    t := DoAccount(c, d, g);
    ReachableStep(c, d, FetchAccount(g));
  }

  /** Only members below |c.nodes| count. */
  lemma {:induction false} BytesBelow(c: Config, a: set<nat>, b: set<nat>, n: nat)
    requires n <= |c.nodes| && forall e: nat :: e < n ==> (e in a <==> e in b)
    ensures Bytes(c, a, n) == Bytes(c, b, n)
  {
    if n > 0 { BytesBelow(c, a, b, n - 1); }
  }

  /** Given an exec thread on device g, its room stays non-negative in every reachable state
      exactly when no exchange of one expert passes its limit. */
  lemma RoomIffSwap(c: Config, g: nat, j: nat)
    requires ConfigOk(c) && ForwardOk(c) && g < c.gpus && j < |c.threadGpu| && c.threadGpu[j] == g
    ensures (forall s :: Reachable(c, s) ==> g < |s.gpus| && s.gpus[g].room >= 0) <==> Swap(c, g)
  {
    if Swap(c, g) {
      forall s | Reachable(c, s) ensures g < |s.gpus| && s.gpus[g].room >= 0 {
        CacheAccounting(c, s, g);
      }
    } else {
      var group: set<nat>, v: nat, e: nat :| !SwapFits(c, g, group, v, e);
      var known := set x | x in group && x < |c.nodes|;
      BytesBelow(c, group, known, |c.nodes|);
      var t := OverdrawnRun(c, g, j, known, v, e);
    }
  }

  /** Two experts of one and two bytes under a limit of one: the larger overdraws it. */
  lemma UnequalSizesOverdraw(c: Config)
    requires ConfigOk(c) && ForwardOk(c) && c.gpus == 1 && c.limit == [1] && c.threadGpu == [0]
    requires |c.nodes| == 2 && c.nodes[0].size == 1 && c.nodes[1].size == 2
    ensures exists s :: Reachable(c, s) && 0 < |s.gpus| && s.gpus[0].room < 0
  {
    assert Bytes(c, {0}, 0) == 0 && Bytes(c, {0}, 1) == 1 && Bytes(c, {0}, 2) == 1;
    var t := OverdrawnRun(c, 0, 0, {0}, 0, 1);
  }
}
