/**
 * What every step of the dispatcher keeps.
 *
 * The invariant speaks about a history `h` that the program does not store: the
 * one place where each expert's token is, and who holds each overload slot.
 */
module DispatcherInvariant {
  import opened Basics
  import opened DispatcherModel

  datatype Option<+T> = None | Some(value: T)

  datatype Place = Nowhere | InInput(g: nat) | AtFetch(g: nat) | InExec(g: nat) | OnThread(j: nat)

  datatype History = History(place: seq<Place>, owner: seq<Option<nat>>)

  // ---------------------------------------------------------------- sums over sets

  /** Sum of f over the members of `s` below `n`. */
  ghost function Total(s: set<nat>, n: nat, f: nat -> real): real {
    if n == 0 then 0.0 else Total(s, n - 1, f) + (if n - 1 in s then f(n - 1) else 0.0)
  }

  lemma {:induction false} TotalAdd(s: set<nat>, n: nat, f: nat -> real, x: nat)
    requires x !in s
    ensures Total(s + {x}, n, f) == Total(s, n, f) + (if x < n then f(x) else 0.0)
  {
    if n > 0 { TotalAdd(s, n - 1, f, x); }
  }

  lemma {:induction false} TotalEmpty(n: nat, f: nat -> real)
    ensures Total({}, n, f) == 0.0
  {
    if n > 0 { TotalEmpty(n - 1, f); }
  }

  /** Weight bytes of the members of `s` below `n`. */
  ghost function Bytes(c: Config, s: set<nat>, n: nat): nat
    requires n <= |c.nodes|
  {
    if n == 0 then 0 else Bytes(c, s, n - 1) + (if n - 1 in s then c.nodes[n - 1].size else 0)
  }

  lemma {:induction false} BytesAdd(c: Config, s: set<nat>, n: nat, x: nat)
    requires n <= |c.nodes| && x !in s
    ensures Bytes(c, s + {x}, n) == Bytes(c, s, n) + (if x < n then c.nodes[x].size else 0)
  {
    if n > 0 { BytesAdd(c, s, n - 1, x); }
  }

  lemma BytesRemove(c: Config, s: set<nat>, x: nat)
    requires x in s && x < |c.nodes|
    ensures Bytes(c, s - {x}, |c.nodes|) == Bytes(c, s, |c.nodes|) - c.nodes[x].size
  {
    BytesAdd(c, s - {x}, |c.nodes|, x);
    assert s - {x} + {x} == s;
  }

  // ---------------------------------------------------------------- the invariant

  ghost predicate Shaped(c: Config, s: State, h: History) {
    ConfigOk(c) && Sized(c, s) && |h.place| == |c.nodes| && |h.owner| == c.gpus
  }

  ghost predicate Distinct(q: seq<ExecArgs>) {
    forall i, k :: 0 <= i < k < |q| ==> q[i].expert != q[k].expert
  }

  ghost predicate Queued(q: seq<ExecArgs>, e: nat) {
    exists i :: 0 <= i < |q| && q[i].expert == e
  }

  lemma QueuedAppend(q: seq<ExecArgs>, x: ExecArgs)
    ensures Queued(q + [x], x.expert)
    ensures forall e :: Queued(q, e) ==> Queued(q + [x], e)
  {
    assert (q + [x])[|q|] == x;
    forall e | Queued(q, e) ensures Queued(q + [x], e) {
      var i :| 0 <= i < |q| && q[i].expert == e;
      assert (q + [x])[i] == q[i];
    }
  }

  ghost predicate PlacedAt(c: Config, h: History, e: nat, p: Place) {
    e < |c.nodes| && |h.place| == |c.nodes| && h.place[e] == p
  }

  /** The token of `e` really is at place `p`. */
  ghost predicate TokenAt(c: Config, s: State, e: nat, p: Place)
    requires Sized(c, s)
  {
    match p
    case Nowhere => true
    case InInput(g) => g < c.gpus && e in s.gpus[g].inputQ
    case AtFetch(g) => g < c.gpus && s.gpus[g].fetch.FetchBusy? && s.gpus[g].fetch.expert == e
    case InExec(g) => g < c.gpus && Queued(s.gpus[g].execQ, e)
    case OnThread(j) => j < |s.threads| && s.threads[j].ExecBusy? && s.threads[j].args.expert == e
  }

  /** The expert's forward has not finished: its token is still before the IDLE store. */
  ghost predicate Live(s: State, p: Place) {
    match p
    case Nowhere => false
    case OnThread(j) => ThreadAt(s, j, Popped) || ThreadAt(s, j, Computed)
    case _ => true
  }

  /** A waiting expert is off the devices, a runnable one is on the device that will run it. */
  ghost predicate DeviceFits(c: Config, s: State, p: Place, d: Device)
    requires Sized(c, s)
  {
    match p
    case Nowhere => true
    case InInput(g) => d == Host
    case AtFetch(g) => d == if FetchAt(s, g, Moved) then Cuda(g) else Host
    case InExec(g) => d == Cuda(g)
    case OnThread(j) =>
      && (ThreadAt(s, j, Popped) || ThreadAt(s, j, Computed) || (ThreadAt(s, j, Idled) && s.threads[j].args.evict) ==>
            d == Cuda(c.threadGpu[j]))
      && (ThreadAt(s, j, Offloaded) || ThreadAt(s, j, Released) || (ThreadAt(s, j, Accumulated) && s.threads[j].args.evict) ==>
            d == Host)
  }

  /** What holds of each expert. */
  ghost predicate ExpertOk(c: Config, s: State, h: History, e: nat)
    requires Shaped(c, s, h) && e < |c.nodes|
  {
    var x := s.experts[e];
    && TokenAt(c, s, e, h.place[e])
    && (x.exec == Fetching <==> Live(s, h.place[e]))
    && DeviceFits(c, s, h.place[e], x.device)
    && (x.device.Cuda? ==> x.device.gpu < c.gpus)
  }

  ghost predicate InputQueueOk(c: Config, h: History, g: nat, q: seq<nat>) {
    (forall i :: 0 <= i < |q| ==> PlacedAt(c, h, q[i], InInput(g))) && NoRepeat(q)
  }

  /** A token marked for eviction is never that of a counted expert. */
  ghost predicate ExecQueueOk(c: Config, h: History, g: nat, q: seq<ExecArgs>, cached: set<nat>) {
    && (forall i :: 0 <= i < |q| ==> PlacedAt(c, h, q[i].expert, InExec(g)) && (q[i].evict ==> q[i].expert !in cached))
    && Distinct(q)
  }

  /** The tokens in the queues of device g are placed there, once each. */
  ghost predicate QueuesOk(c: Config, s: State, h: History, g: nat)
    requires Shaped(c, s, h) && g < c.gpus
  {
    var u := s.gpus[g];
    && InputQueueOk(c, h, g, u.inputQ)
    && (u.fetch.FetchBusy? ==> PlacedAt(c, h, u.fetch.expert, AtFetch(g)))
    && ExecQueueOk(c, h, g, u.execQ, u.cached)
  }

  /** History after the token of `e` appears, moves or leaves. */
  ghost function Move(h: History, e: nat, p: Place): History
    requires e < |h.place|
  {
    h.(place := h.place[e := p])
  }

  ghost function SetOwner(h: History, g: nat, o: Option<nat>): History
    requires g < |h.owner|
  {
    h.(owner := h.owner[g := o])
  }

  lemma ExecQueueFrame(c: Config, h: History, e: nat, p: Place, g: nat, q: seq<ExecArgs>, cached: set<nat>)
    requires e < |h.place| && ExecQueueOk(c, h, g, q, cached) && h.place[e] != InExec(g)
    ensures ExecQueueOk(c, Move(h, e, p), g, q, cached)
  {
  }

  lemma ExecQueuePush(c: Config, h: History, g: nat, q: seq<ExecArgs>, x: ExecArgs, cached: set<nat>)
    requires x.expert < |h.place| == |c.nodes| && ExecQueueOk(c, h, g, q, cached)
    requires h.place[x.expert] != InExec(g) && (x.evict ==> x.expert !in cached)
    ensures ExecQueueOk(c, Move(h, x.expert, InExec(g)), g, q + [x], cached)
  {
    assert forall i :: 0 <= i < |q| ==> q[i].expert != x.expert;
  }

  lemma InputQueueFrame(c: Config, h: History, e: nat, p: Place, g: nat, q: seq<nat>)
    requires e < |h.place| && InputQueueOk(c, h, g, q) && h.place[e] != InInput(g)
    ensures InputQueueOk(c, Move(h, e, p), g, q)
  {
  }

  lemma InputQueuePush(c: Config, h: History, g: nat, q: seq<nat>, e: nat)
    requires e < |h.place| == |c.nodes| && InputQueueOk(c, h, g, q) && h.place[e] != InInput(g)
    ensures InputQueueOk(c, Move(h, e, InInput(g)), g, q + [e])
  {
    assert forall i :: 0 <= i < |q| ==> q[i] != e;
  }

  /** The cache of device g: its contents are resident, and room plus bytes equal the limit. */
  ghost predicate CacheOk(c: Config, s: State, g: nat)
    requires Sized(c, s) && g < c.gpus && |c.limit| == c.gpus
  {
    var u := s.gpus[g];
    && (forall e :: e in u.cached ==> e < |c.nodes| && s.experts[e].device == Cuda(g))
    && u.room + Bytes(c, u.cached, |c.nodes|) == c.limit[g]
  }

  /** A chosen victim stays evictable, and a counted expert is not moved under the overload flag. */
  ghost predicate FetcherOk(c: Config, s: State, g: nat)
    requires Sized(c, s) && g < c.gpus
  {
    var u := s.gpus[g];
    u.fetch.FetchBusy? ==>
      match u.fetch.stage
      case HasVictim(v) => v < |c.nodes| && v in u.cached && s.experts[v].exec == Idle
      case Moved => u.fetch.expert in u.cached ==> !u.overload
      case _ => true
  }

  ghost predicate GpuOk(c: Config, s: State, h: History, g: nat)
    requires Shaped(c, s, h) && g < c.gpus
  {
    QueuesOk(c, s, h, g) && CacheOk(c, s, g) && FetcherOk(c, s, g)
  }

  ghost predicate ThreadOk(c: Config, s: State, h: History, j: nat)
    requires Shaped(c, s, h) && j < |s.threads|
  {
    s.threads[j].ExecBusy? ==>
      && PlacedAt(c, h, s.threads[j].args.expert, OnThread(j))
      && (s.threads[j].args.evict ==> s.threads[j].args.expert !in s.gpus[c.threadGpu[j]].cached)
      && (s.threads[j].phase.Offloaded? || s.threads[j].phase.Released? ==> s.threads[j].args.evict)
  }

  ghost function Active(h: History): set<nat> {
    set e | 0 <= e < |h.place| && h.place[e] != Nowhere
  }

  /** The barrier counts what is still to come. */
  ghost predicate BarrierOk(c: Config, s: State, h: History)
    requires Shaped(c, s, h)
  {
    match s.client
    case Resting => Active(h) == {} && s.pending == 0
    case InRound(plan, todo) =>
      && PlanOk(c, s.inputs, plan)
      && todo <= plan
      && Active(h) <= plan - todo
      && s.pending == |todo| + |Active(h)|
  }

  ghost predicate ExpertsOk(c: Config, s: State, h: History)
    requires Shaped(c, s, h)
  {
    forall e :: 0 <= e < |c.nodes| ==> ExpertOk(c, s, h, e)
  }

  ghost predicate GpusOk(c: Config, s: State, h: History)
    requires Shaped(c, s, h)
  {
    forall g :: 0 <= g < c.gpus ==> GpuOk(c, s, h, g)
  }

  ghost predicate ThreadsOk(c: Config, s: State, h: History)
    requires Shaped(c, s, h)
  {
    forall j :: 0 <= j < |s.threads| ==> ThreadOk(c, s, h, j)
  }

  ghost predicate Control(c: Config, s: State, h: History) {
    && Shaped(c, s, h)
    && ExpertsOk(c, s, h) && GpusOk(c, s, h) && ThreadsOk(c, s, h)
    && BarrierOk(c, s, h) && !s.fault
  }

  // ---------------------------------------------------------------- values

  ghost function Contribution(c: Config, x: Inputs, e: nat, t: nat, k: nat): real
    requires InputsOk(c, x) && t < |x.hidden| && k < c.dim && ForwardOk(c)
  {
    if e < |c.nodes| && x.mask[t][c.nodes[e].column]
    then c.forward(e, x.hidden[t])[k] * x.weight[t][c.nodes[e].column]
    else 0.0
  }

  ghost function Summand(c: Config, x: Inputs, t: nat, k: nat): nat -> real
    requires InputsOk(c, x) && t < |x.hidden| && k < c.dim && ForwardOk(c)
  {
    (e: nat) => Contribution(c, x, e, t, k)
  }

  /** Experts of the round whose output is in the accumulator. */
  ghost function Contributed(c: Config, s: State, h: History): set<nat>
    requires Shaped(c, s, h) && s.client.InRound?
  {
    set e | e in s.client.plan - s.client.todo && e < |c.nodes| &&
            (h.place[e] == Nowhere || (h.place[e].OnThread? && ThreadAt(s, h.place[e].j, Accumulated)))
  }

  ghost predicate HasOutput(p: Phase) { p.Computed? || p.Idled? || p.Offloaded? || p.Released? }

  ghost predicate ValuesAgree(c: Config, s: State, h: History)
    requires Shaped(c, s, h) && ForwardOk(c)
  {
    s.client.InRound? && InputsOk(c, s.inputs) ==>
      && MatrixOk(s.acc, |s.inputs.hidden|, c.dim)
      && (forall j :: 0 <= j < |s.threads| && s.threads[j].ExecBusy? && HasOutput(s.threads[j].phase) ==>
            && s.threads[j].args.expert < |c.nodes|
            && s.threads[j].out == ForwardRows(c, s.threads[j].args.expert, InputRows(c, s.inputs, s.threads[j].args.expert)))
      && (forall t, k :: 0 <= t < |s.inputs.hidden| && 0 <= k < c.dim ==>
            s.acc[t][k] == Total(Contributed(c, s, h), |c.nodes|, Summand(c, s.inputs, t, k)))
  }

  ghost predicate Inv(c: Config, s: State, h: History) {
    ForwardOk(c) && Control(c, s, h) && ValuesAgree(c, s, h)
  }
}
