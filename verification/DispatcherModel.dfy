/**
 * The expert dispatcher as a step machine.
 *
 * One step is one push or pop of a queue, one decision of a fetch thread, or one
 * phase of an exec thread's output function.  All threads interleave freely.  The
 * machine has no prefetch actor and every forward that starts returns.
 */
module DispatcherModel {

  type Row = seq<real>

  const MAX_TOKENS := 256
  const INT_MAX := 0x7FFF_FFFF

  /** EXECUTING is declared by the program but the dispatcher never stores it. */
  datatype ExecState = Idle | Fetching

  datatype Device = Host | Cuda(gpu: nat)

  /** One cell of the expert table, with its position and weight bytes. */
  datatype ExpertNode = ExpertNode(layer: nat, column: nat, size: nat)

  /** What does not change while the dispatcher lives.  `forward(e, x)` is the
      output row of expert `e` on one hidden-state row; `threadGpu[j]` is the
      device served by exec thread `j`. */
  datatype Config = Config(
    gpus: nat,
    threadGpu: seq<nat>,
    nodes: seq<ExpertNode>,
    limit: seq<int>,
    dim: nat,
    forward: (nat, Row) -> Row)

  datatype Inputs = Inputs(hidden: seq<Row>, mask: seq<seq<bool>>, weight: seq<seq<real>>)

  datatype ExecArgs = ExecArgs(expert: nat, evict: bool)

  datatype FetchStage = NeedSlot | NeedVictim | HasVictim(victim: nat) | Ready | Moved
  datatype FetchPc = FetchFree | FetchBusy(expert: nat, stage: FetchStage)

  datatype Phase = Popped | Computed | Idled | Offloaded | Released | Accumulated
  datatype ExecPc = ExecFree | ExecBusy(args: ExecArgs, phase: Phase, out: seq<Row>)

  /** The thread that drives a round: SetInputs and SetExpectedQueue, one
      EnqueueExpert per member of `plan`, then WaitHiddenStates. */
  datatype Client = Resting | InRound(plan: set<nat>, todo: set<nat>)

  /** One node of the topology as the dispatcher sees it. */
  datatype Expert = Expert(exec: ExecState, device: Device, visits: nat)

  /** Everything the dispatcher keeps per device. */
  datatype Gpu = Gpu(
    inputQ: seq<nat>,
    fetch: FetchPc,
    execQ: seq<ExecArgs>,
    room: int,
    cached: set<nat>,
    overload: bool)

  datatype State = State(
    experts: seq<Expert>,
    gpus: seq<Gpu>,
    threads: seq<ExecPc>,
    inputs: Inputs,
    acc: seq<Row>,
    pending: int,
    client: Client,
    fault: bool)

  predicate ConfigOk(c: Config) {
    && |c.limit| == c.gpus
    && (forall g :: 0 <= g < c.gpus ==> c.limit[g] >= 0)
    && (forall j :: 0 <= j < |c.threadGpu| ==> c.threadGpu[j] < c.gpus)
  }

  /** A forward keeps the hidden dimension. */
  ghost predicate ForwardOk(c: Config) {
    forall e: nat, x: Row :: |x| == c.dim ==> |c.forward(e, x)| == c.dim
  }

  function Unit(c: Config): nat {
    if |c.nodes| == 0 then 0 else c.nodes[0].size
  }

  /** All experts weigh the same. */
  predicate Uniform(c: Config) {
    forall e :: 0 <= e < |c.nodes| ==> c.nodes[e].size == Unit(c)
  }

  predicate Sized(c: Config, s: State) {
    |s.experts| == |c.nodes| && |s.gpus| == c.gpus && |s.threads| == |c.threadGpu|
  }

  // ---------------------------------------------------------------- tensors

  predicate InputsOk(c: Config, x: Inputs) {
    && |x.hidden| == |x.mask| == |x.weight|
    && (forall t :: 0 <= t < |x.hidden| ==> |x.hidden[t]| == c.dim)
    && (forall t, e :: 0 <= t < |x.mask| && 0 <= e < |c.nodes| ==> c.nodes[e].column < |x.mask[t]|)
    && (forall t, e :: 0 <= t < |x.weight| && 0 <= e < |c.nodes| ==> c.nodes[e].column < |x.weight[t]|)
  }

  predicate MatrixOk(m: seq<Row>, rows: nat, cols: nat) {
    |m| == rows && forall t :: 0 <= t < |m| ==> |m[t]| == cols
  }

  function ZeroRow(d: nat): (r: Row)
    ensures |r| == d && forall k :: 0 <= k < d ==> r[k] == 0.0
  {
    seq(d, _ => 0.0)
  }

  function ZeroRows(n: nat, d: nat): (m: seq<Row>)
    ensures MatrixOk(m, n, d)
    ensures forall t, k :: 0 <= t < n && 0 <= k < d ==> m[t][k] == 0.0
  {
    seq(n, _ => ZeroRow(d))
  }

  function AddScaled(a: Row, b: Row, w: real): (r: Row)
    requires |a| == |b|
    ensures |r| == |a| && forall k :: 0 <= k < |a| ==> r[k] == a[k] + b[k] * w
  {
    seq(|a|, k requires 0 <= k < |a| => a[k] + b[k] * w)
  }

  predicate HasColumn<T>(m: seq<seq<T>>, col: nat) {
    forall t :: 0 <= t < |m| ==> col < |m[t]|
  }

  /** Rows below `n` whose mask bit is set in column `col`, in order (nonzero). */
  function Selected(mask: seq<seq<bool>>, col: nat, n: nat): (idx: seq<nat>)
    requires n <= |mask| && HasColumn(mask, col)
    ensures forall k :: 0 <= k < |idx| ==> idx[k] < n && mask[idx[k]][col]
    ensures forall i, k :: 0 <= i < k < |idx| ==> idx[i] < idx[k]
    ensures forall t :: 0 <= t < n && mask[t][col] ==> t in idx
  {
    if n == 0 then []
    else if mask[n - 1][col] then Selected(mask, col, n - 1) + [n - 1]
    else Selected(mask, col, n - 1)
  }

  /** index_add_ of the first `m` weighted rows. */
  function IndexAdd(acc: seq<Row>, idx: seq<nat>, rows: seq<Row>, weight: seq<seq<real>>, col: nat, m: nat): (r: seq<Row>)
    requires m <= |idx| == |rows| && HasColumn(weight, col) && |weight| == |acc|
    requires forall k :: 0 <= k < |idx| ==> idx[k] < |acc| && |rows[k]| == |acc[idx[k]]|
    ensures |r| == |acc| && forall t :: 0 <= t < |r| ==> |r[t]| == |acc[t]|
  {
    if m == 0 then acc
    else
      var r := IndexAdd(acc, idx, rows, weight, col, m - 1);
      var t := idx[m - 1];
      r[t := AddScaled(r[t], rows[m - 1], weight[t][col])]
  }

  /** The rows handed to expert `e`: all of them for a single token, else the masked ones. */
  function InputRows(c: Config, x: Inputs, e: nat): (rows: seq<Row>)
    requires InputsOk(c, x) && e < |c.nodes|
    ensures forall k :: 0 <= k < |rows| ==> |rows[k]| == c.dim
  {
    if |x.hidden| == 1 then x.hidden
    else
      var idx := Selected(x.mask, c.nodes[e].column, |x.mask|);
      seq(|idx|, k requires 0 <= k < |idx| => x.hidden[idx[k]])
  }

  function ForwardRows(c: Config, e: nat, rows: seq<Row>): (out: seq<Row>)
    ensures |out| == |rows| && forall k :: 0 <= k < |rows| ==> out[k] == c.forward(e, rows[k])
  {
    seq(|rows|, k requires 0 <= k < |rows| => c.forward(e, rows[k]))
  }

  predicate OutputOk(c: Config, x: Inputs, e: nat, out: seq<Row>)
    requires InputsOk(c, x) && e < |c.nodes|
  {
    |out| == |InputRows(c, x, e)| && forall k :: 0 <= k < |out| ==> |out[k]| == c.dim
  }

  /** The accumulation of one expert's output under the accumulation lock. */
  function Accumulate(c: Config, x: Inputs, acc: seq<Row>, e: nat, out: seq<Row>): (r: seq<Row>)
    requires InputsOk(c, x) && e < |c.nodes| && MatrixOk(acc, |x.hidden|, c.dim)
    requires OutputOk(c, x, e, out)
    ensures MatrixOk(r, |x.hidden|, c.dim)
  {
    var col := c.nodes[e].column;
    if |x.hidden| == 1 then [AddScaled(acc[0], out[0], x.weight[0][col])]
    else
      var idx := Selected(x.mask, col, |x.mask|);
      IndexAdd(acc, idx, out, x.weight, col, |idx|)
  }

  // ---------------------------------------------------------------- cache keys

  const KEY_BASE := 0x1_0000_0000

  function CacheKey(layer: nat, column: nat): nat { layer * KEY_BASE + column }
  function KeyLayer(key: nat): nat { key / KEY_BASE }
  function KeyColumn(key: nat): nat { key % KEY_BASE }

  /** Packing layer and expert into one key loses nothing while the expert index fits 32 bits. */
  lemma CacheKeyRoundTrip(layer: nat, column: nat)
    ensures column < KEY_BASE <==> KeyLayer(CacheKey(layer, column)) == layer && KeyColumn(CacheKey(layer, column)) == column
  {
    if column < KEY_BASE {
      assert CacheKey(layer, column) == KEY_BASE * layer + column;
    } else {
      assert KeyColumn(CacheKey(layer, column)) < KEY_BASE;
    }
  }

  // ---------------------------------------------------------------- steps

  datatype Step =
    | BeginRound(inputs: Inputs, plan: set<nat>)
    | Enqueue(e: nat, g: nat)
    | FetchPop(g: nat)
    | FetchTakeSlot(g: nat)
    | FetchSelect(g: nat, victim: nat)
    | FetchEvict(g: nat)
    | FetchAccount(g: nat)
    | FetchPush(g: nat)
    | ExecPop(j: nat)
    | ExecForward(j: nat)
    | ExecIdle(j: nat)
    | ExecOffload(j: nat)
    | ExecRelease(j: nat)
    | ExecAccumulate(j: nat)
    | ExecFinish(j: nat)
    | EndRound
    | ClearCount(e: nat)

  /** Every expert of a round was selected by at least one token and by at most MAX_TOKENS. */
  predicate Routed(c: Config, x: Inputs, e: nat)
    requires InputsOk(c, x) && e < |c.nodes|
  {
    1 <= |Selected(x.mask, c.nodes[e].column, |x.mask|)| <= MAX_TOKENS
  }

  predicate PlanOk(c: Config, x: Inputs, plan: set<nat>) {
    && InputsOk(c, x)
    && forall e :: e in plan ==> e < |c.nodes| && Routed(c, x, e)
  }

  /** What the victim scan may return: on this device, idle, below the initial bound. */
  predicate Evictable(c: Config, s: State, g: nat, v: nat)
    requires Sized(c, s) && g < c.gpus
  {
    && v in s.gpus[g].cached && v < |c.nodes|
    && s.experts[v].device.Cuda? && s.experts[v].exec == Idle && s.experts[v].visits < INT_MAX
  }

  predicate LeastVisited(c: Config, s: State, g: nat, v: nat)
    requires Sized(c, s) && g < c.gpus
  {
    && Evictable(c, s, g, v)
    && forall u :: u in s.gpus[g].cached && Evictable(c, s, g, u) ==> s.experts[v].visits <= s.experts[u].visits
  }

  predicate ThreadAt(s: State, j: nat, phase: Phase) {
    j < |s.threads| && s.threads[j].ExecBusy? && s.threads[j].phase == phase
  }

  predicate FetchAt(s: State, g: nat, stage: FetchStage) {
    g < |s.gpus| && s.gpus[g].fetch.FetchBusy? && s.gpus[g].fetch.stage == stage
  }

  function SetPhase(s: State, j: nat, phase: Phase): State
    requires j < |s.threads| && s.threads[j].ExecBusy?
  {
    s.(threads := s.threads[j := s.threads[j].(phase := phase)])
  }

  function SetGpu(s: State, g: nat, u: Gpu): State
    requires g < |s.gpus|
  {
    s.(gpus := s.gpus[g := u])
  }

  function SetExpert(s: State, e: nat, x: Expert): State
    requires e < |s.experts|
  {
    s.(experts := s.experts[e := x])
  }

  // The client: SetInputs with SetExpectedQueue, EnqueueExpert, WaitHiddenStates.

  predicate CanBegin(c: Config, s: State, x: Inputs, plan: set<nat>) {
    s.client.Resting? && PlanOk(c, x, plan)
  }

  function DoBegin(c: Config, s: State, x: Inputs, plan: set<nat>): State {
    s.(inputs := x, acc := ZeroRows(|x.hidden|, c.dim), pending := |plan|, client := InRound(plan, plan))
  }

  predicate CanEnqueue(c: Config, s: State, e: nat, g: nat) {
    s.client.InRound? && e in s.client.todo && e < |c.nodes| && g < c.gpus
  }

  /** Compare-exchange to FETCHING, then the exec queue on a hit or the input queue on a miss. */
  function DoEnqueue(c: Config, s: State, e: nat, g: nat): State
    requires Sized(c, s) && CanEnqueue(c, s, e, g)
  {
    var x := s.experts[e];
    if x.exec != Idle then s.(fault := true)
    else
      var t := SetExpert(s, e, x.(exec := Fetching)).(client := s.client.(todo := s.client.todo - {e}));
      if x.device.Cuda? then
        if x.device.gpu < c.gpus then
          var u := s.gpus[x.device.gpu];
          SetGpu(t, x.device.gpu, u.(execQ := u.execQ + [ExecArgs(e, false)]))
        else t.(fault := true)
      else SetGpu(t, g, s.gpus[g].(inputQ := s.gpus[g].inputQ + [e]))
  }

  predicate CanEnd(s: State) {
    s.client.InRound? && s.client.todo == {} && s.pending == 0
  }

  /** One store of ClearExpertCacheCounts, which takes no lock. */
  function DoClear(c: Config, s: State, e: nat): State
    requires Sized(c, s) && e < |c.nodes|
  {
    SetExpert(s, e, s.experts[e].(visits := 0))
  }

  // A fetch thread: pop, then room, slot or victim, then the move and the exec token.

  predicate CanPop(c: Config, s: State, g: nat)
    requires Sized(c, s)
  {
    && g < c.gpus && s.gpus[g].fetch.FetchFree?
    && s.gpus[g].inputQ != [] && s.gpus[g].inputQ[0] < |c.nodes|
  }

  /** The branch a fetch thread takes for a popped expert. */
  function FirstStage(c: Config, s: State, g: nat, e: nat): FetchStage
    requires Sized(c, s) && g < c.gpus && e < |c.nodes|
  {
    if s.experts[e].device.Host? && s.gpus[g].room < c.nodes[e].size then
      if |s.inputs.hidden| > 1 then NeedSlot else NeedVictim
    else Ready
  }

  function DoPop(c: Config, s: State, g: nat): State
    requires Sized(c, s) && CanPop(c, s, g)
  {
    var e := s.gpus[g].inputQ[0];
    SetGpu(s, g, s.gpus[g].(inputQ := s.gpus[g].inputQ[1..], fetch := FetchBusy(e, FirstStage(c, s, g, e))))
  }

  predicate CanTakeSlot(s: State, g: nat) {
    FetchAt(s, g, NeedSlot) && !s.gpus[g].overload
  }

  function DoTakeSlot(s: State, g: nat): State
    requires CanTakeSlot(s, g)
  {
    SetGpu(s, g, s.gpus[g].(overload := true, fetch := s.gpus[g].fetch.(stage := Ready)))
  }

  predicate CanSelect(c: Config, s: State, g: nat, v: nat)
    requires Sized(c, s)
  {
    FetchAt(s, g, NeedVictim) && LeastVisited(c, s, g, v)
  }

  function DoSelect(s: State, g: nat, v: nat): State
    requires FetchAt(s, g, NeedVictim)
  {
    SetGpu(s, g, s.gpus[g].(fetch := s.gpus[g].fetch.(stage := HasVictim(v))))
  }

  predicate CanEvict(c: Config, s: State, g: nat)
    requires Sized(c, s)
  {
    && g < c.gpus && s.gpus[g].fetch.FetchBusy?
    && s.gpus[g].fetch.stage.HasVictim? && s.gpus[g].fetch.stage.victim < |c.nodes|
  }

  /** The victim goes to the host and its bytes come back; a key that is not cached is fatal. */
  function DoEvict(c: Config, s: State, g: nat): State
    requires Sized(c, s) && CanEvict(c, s, g)
  {
    var u := s.gpus[g];
    var v := u.fetch.stage.victim;
    var w := u.(room := u.room + c.nodes[v].size, cached := u.cached - {v}, fetch := u.fetch.(stage := Ready));
    SetGpu(SetExpert(s, v, s.experts[v].(device := Host)), g, w).(fault := s.fault || v !in u.cached)
  }

  predicate CanAccount(c: Config, s: State, g: nat)
    requires Sized(c, s)
  {
    FetchAt(s, g, Ready) && s.gpus[g].fetch.expert < |c.nodes|
  }

  /** Accounting unless the overload slot is in use, then the move to the device. */
  function DoAccount(c: Config, s: State, g: nat): State
    requires Sized(c, s) && CanAccount(c, s, g)
  {
    var u := s.gpus[g];
    var e := u.fetch.expert;
    var x := s.experts[e];
    var w := u.(fetch := u.fetch.(stage := Moved));
    SetGpu(
      SetExpert(s, e, x.(device := if x.device.Host? then Cuda(g) else x.device, visits := x.visits + 1)), g,
      if u.overload then w else w.(room := u.room - c.nodes[e].size, cached := u.cached + {e}))
  }

  predicate CanPush(c: Config, s: State, g: nat)
    requires Sized(c, s)
  {
    FetchAt(s, g, Moved) && s.gpus[g].fetch.expert < |c.nodes|
  }

  /** The exec token; the overload flag is read a second time for it. */
  function DoPush(s: State, g: nat): State
    requires FetchAt(s, g, Moved)
  {
    var u := s.gpus[g];
    SetGpu(s, g, u.(execQ := u.execQ + [ExecArgs(u.fetch.expert, u.overload)], fetch := FetchFree))
  }

  // An exec thread: pop, forward, then the phases of the output function.

  predicate CanExecPop(c: Config, s: State, j: nat)
    requires Sized(c, s)
  {
    && j < |s.threads| && s.threads[j].ExecFree?
    && c.threadGpu[j] < c.gpus && s.gpus[c.threadGpu[j]].execQ != []
    && s.gpus[c.threadGpu[j]].execQ[0].expert < |c.nodes|
  }

  function DoExecPop(c: Config, s: State, j: nat): State
    requires Sized(c, s) && CanExecPop(c, s, j)
  {
    var g := c.threadGpu[j];
    var u := s.gpus[g];
    SetGpu(s, g, u.(execQ := u.execQ[1..])).(threads := s.threads[j := ExecBusy(u.execQ[0], Popped, [])])
  }

  predicate CanForward(c: Config, s: State, j: nat) {
    ThreadAt(s, j, Popped) && s.threads[j].args.expert < |c.nodes| && InputsOk(c, s.inputs)
  }

  /** Running an expert whose weights are not on this device, or on a bad batch, is a fault. */
  function DoForward(c: Config, s: State, j: nat): State
    requires Sized(c, s) && CanForward(c, s, j)
  {
    var e := s.threads[j].args.expert;
    var rows := InputRows(c, s.inputs, e);
    if s.experts[e].device != Cuda(c.threadGpu[j]) || |rows| == 0 || |rows| > MAX_TOKENS then s.(fault := true)
    else s.(threads := s.threads[j := ExecBusy(s.threads[j].args, Computed, ForwardRows(c, e, rows))])
  }

  predicate CanIdle(c: Config, s: State, j: nat) {
    ThreadAt(s, j, Computed) && s.threads[j].args.expert < |c.nodes|
  }

  function DoIdle(c: Config, s: State, j: nat): State
    requires Sized(c, s) && CanIdle(c, s, j)
  {
    var e := s.threads[j].args.expert;
    SetExpert(SetPhase(s, j, Idled), e, s.experts[e].(exec := Idle))
  }

  predicate CanOffload(c: Config, s: State, j: nat) {
    ThreadAt(s, j, Idled) && s.threads[j].args.expert < |c.nodes| && s.threads[j].args.evict
  }

  function DoOffload(c: Config, s: State, j: nat): State
    requires Sized(c, s) && CanOffload(c, s, j)
  {
    var e := s.threads[j].args.expert;
    SetExpert(SetPhase(s, j, Offloaded), e, s.experts[e].(device := Host))
  }

  predicate CanRelease(c: Config, s: State, j: nat)
    requires Sized(c, s)
  {
    ThreadAt(s, j, Offloaded) && c.threadGpu[j] < c.gpus
  }

  function DoRelease(c: Config, s: State, j: nat): State
    requires Sized(c, s) && CanRelease(c, s, j)
  {
    var g := c.threadGpu[j];
    SetGpu(SetPhase(s, j, Released), g, s.gpus[g].(overload := false))
  }

  predicate CanAccumulate(c: Config, s: State, j: nat) {
    && (ThreadAt(s, j, Released) || (ThreadAt(s, j, Idled) && !s.threads[j].args.evict))
    && s.threads[j].args.expert < |c.nodes| && InputsOk(c, s.inputs)
    && MatrixOk(s.acc, |s.inputs.hidden|, c.dim)
    && OutputOk(c, s.inputs, s.threads[j].args.expert, s.threads[j].out)
  }

  function DoAccumulate(c: Config, s: State, j: nat): State
    requires Sized(c, s) && CanAccumulate(c, s, j)
  {
    SetPhase(s, j, Accumulated).(acc := Accumulate(c, s.inputs, s.acc, s.threads[j].args.expert, s.threads[j].out))
  }

  predicate CanFinish(c: Config, s: State, j: nat) {
    ThreadAt(s, j, Accumulated) && s.threads[j].args.expert < |c.nodes|
  }

  function DoFinish(s: State, j: nat): State
    requires ThreadAt(s, j, Accumulated)
  {
    s.(threads := s.threads[j := ExecFree], pending := s.pending - 1)
  }

  predicate Enabled(c: Config, s: State, step: Step)
    requires Sized(c, s)
  {
    match step
    case BeginRound(x, plan) => CanBegin(c, s, x, plan)
    case Enqueue(e, g) => CanEnqueue(c, s, e, g)
    case FetchPop(g) => CanPop(c, s, g)
    case FetchTakeSlot(g) => CanTakeSlot(s, g)
    case FetchSelect(g, v) => CanSelect(c, s, g, v)
    case FetchEvict(g) => CanEvict(c, s, g)
    case FetchAccount(g) => CanAccount(c, s, g)
    case FetchPush(g) => CanPush(c, s, g)
    case ExecPop(j) => CanExecPop(c, s, j)
    case ExecForward(j) => CanForward(c, s, j)
    case ExecIdle(j) => CanIdle(c, s, j)
    case ExecOffload(j) => CanOffload(c, s, j)
    case ExecRelease(j) => CanRelease(c, s, j)
    case ExecAccumulate(j) => CanAccumulate(c, s, j)
    case ExecFinish(j) => CanFinish(c, s, j)
    case EndRound => CanEnd(s)
    case ClearCount(e) => e < |c.nodes|
  }

  function Apply(c: Config, s: State, step: Step): (r: State)
    requires Sized(c, s) && Enabled(c, s, step)
    ensures Sized(c, r)
  {
    match step
    case BeginRound(x, plan) => DoBegin(c, s, x, plan)
    case Enqueue(e, g) => DoEnqueue(c, s, e, g)
    case FetchPop(g) => DoPop(c, s, g)
    case FetchTakeSlot(g) => DoTakeSlot(s, g)
    case FetchSelect(g, v) => DoSelect(s, g, v)
    case FetchEvict(g) => DoEvict(c, s, g)
    case FetchAccount(g) => DoAccount(c, s, g)
    case FetchPush(g) => DoPush(s, g)
    case ExecPop(j) => DoExecPop(c, s, j)
    case ExecForward(j) => DoForward(c, s, j)
    case ExecIdle(j) => DoIdle(c, s, j)
    case ExecOffload(j) => DoOffload(c, s, j)
    case ExecRelease(j) => DoRelease(c, s, j)
    case ExecAccumulate(j) => DoAccumulate(c, s, j)
    case ExecFinish(j) => DoFinish(s, j)
    case EndRound => s.(client := Resting)
    case ClearCount(e) => DoClear(c, s, e)
  }

  /** Named assumption.  The victim scan and the victim's move to the host are two
      steps with no common lock; a round must not enqueue an expert in between. */
  predicate NotSelected(s: State, e: nat) {
    forall g :: 0 <= g < |s.gpus| ==> !(s.gpus[g].fetch.FetchBusy? && s.gpus[g].fetch.stage == HasVictim(e))
  }

  predicate EvictionIsAtomic(s: State, step: Step) {
    step.Enqueue? ==> NotSelected(s, step.e)
  }

  function Init(c: Config): (s: State)
    requires ConfigOk(c)
    ensures Sized(c, s)
  {
    State(
      seq(|c.nodes|, _ => Expert(Idle, Host, 0)),
      seq(c.gpus, g requires 0 <= g < c.gpus => Gpu([], FetchFree, [], c.limit[g], {}, false)),
      seq(|c.threadGpu|, _ => ExecFree),
      Inputs([], [], []), [], 0, Resting, false)
  }

  /** A run from `s`: every step is enabled where it is taken. */
  predicate Run(c: Config, s: State, steps: seq<Step>)
    requires Sized(c, s)
    decreases |steps|
  {
    steps == [] || (Enabled(c, s, steps[0]) && Run(c, Apply(c, s, steps[0]), steps[1..]))
  }

  /** A run that also keeps the named assumption. */
  predicate AtomicRun(c: Config, s: State, steps: seq<Step>)
    requires Sized(c, s)
    decreases |steps|
  {
    steps == [] ||
    (Enabled(c, s, steps[0]) && EvictionIsAtomic(s, steps[0]) && AtomicRun(c, Apply(c, s, steps[0]), steps[1..]))
  }

  lemma AtomicRunIsRun(c: Config, s: State, steps: seq<Step>)
    requires Sized(c, s) && AtomicRun(c, s, steps)
    ensures Run(c, s, steps)
    decreases |steps|
  {
    if steps != [] {
      AtomicRunIsRun(c, Apply(c, s, steps[0]), steps[1..]);
    }
  }

  function After(c: Config, s: State, steps: seq<Step>): (r: State)
    requires Sized(c, s) && Run(c, s, steps)
    ensures Sized(c, r)
    decreases |steps|
  {
    if steps == [] then s else After(c, Apply(c, s, steps[0]), steps[1..])
  }
}
