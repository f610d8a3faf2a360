/**
 * Why the named assumption is needed: an expert enqueued between its choice as a victim and its
 * eviction is lost, and no continuation can run it.
 */
module DispatcherLoss {
  import opened DispatcherModel
  import opened DispatcherInvariant
  import opened DispatcherTheorems

  /** Expert v still waits for its forward on device g. */
  ghost predicate Awaits(c: Config, s: State, g: nat, v: nat)
    requires Sized(c, s)
  {
    && g < c.gpus
    && (Queued(s.gpus[g].execQ, v) || exists j: nat :: ThreadAt(s, j, Popped) && s.threads[j].args.expert == v && c.threadGpu[j] == g)
  }

  /** Nothing that fetches an expert has hold of v. */
  ghost predicate NotFetched(s: State, v: nat, i: nat)
    requires i < |s.gpus|
  {
    v !in s.gpus[i].inputQ && (s.gpus[i].fetch.FetchBusy? ==> s.gpus[i].fetch.expert != v)
  }

  /** v is FETCHING and waits for its forward, and nothing will fetch it. */
  ghost predicate Waiting(c: Config, s: State, g: nat, v: nat) {
    && Sized(c, s) && v < |c.nodes| && s.experts[v].exec == Fetching
    && Awaits(c, s, g, v)
    && (forall i :: 0 <= i < |s.gpus| ==> NotFetched(s, v, i))
    && (forall j :: 0 <= j < |s.threads| && s.threads[j].ExecBusy? && s.threads[j].args.expert == v ==> s.threads[j].phase == Popped)
  }

  /** v waits with its weights on the host. */
  ghost predicate Lost(c: Config, s: State, g: nat, v: nat) {
    Waiting(c, s, g, v) && s.experts[v].device == Host
  }

  /** v waits while it is the victim that device g has chosen. */
  ghost predicate Condemned(c: Config, s: State, g: nat, v: nat) {
    && Waiting(c, s, g, v)
    && s.gpus[g].fetch.FetchBusy? && s.gpus[g].fetch.stage == HasVictim(v) && v in s.gpus[g].cached
  }

  predicate ForwardOf(s: State, step: Step, v: nat) {
    step.ExecForward? && ThreadAt(s, step.j, Popped) && s.threads[step.j].args.expert == v
  }

  lemma QueuedTail(q: seq<ExecArgs>, v: nat)
    requires Queued(q, v) && q[0].expert != v
    ensures Queued(q[1..], v)
  {
    var i :| 0 <= i < |q| && q[i].expert == v;
    assert q[1..][i - 1] == q[i];
  }

  lemma FaultStays(c: Config, s: State, step: Step)
    requires Sized(c, s) && Enabled(c, s, step) && s.fault
    ensures Apply(c, s, step).fault
  {
  }

  /** A thread that holds v stays where it is. */
  lemma AwaitsKept(c: Config, s: State, t: State, g: nat, v: nat)
    requires Sized(c, s) && Sized(c, t) && Awaits(c, s, g, v)
    requires Queued(s.gpus[g].execQ, v) ==> Queued(t.gpus[g].execQ, v)
    requires forall j: nat :: ThreadAt(s, j, Popped) && s.threads[j].args.expert == v ==> t.threads[j] == s.threads[j]
    ensures Awaits(c, t, g, v)
  {
    if !Queued(s.gpus[g].execQ, v) {
      var j: nat :| ThreadAt(s, j, Popped) && s.threads[j].args.expert == v && c.threadGpu[j] == g;
      assert ThreadAt(t, j, Popped);
    }
  }

  /** The client's steps: a second enqueue of v is itself a fault. */
  lemma ClientKeepsWaiting(c: Config, s: State, g: nat, v: nat, step: Step)
    requires Waiting(c, s, g, v) && Enabled(c, s, step) && (step.BeginRound? || step.Enqueue? || step.EndRound? || step.ClearCount?)
    ensures Apply(c, s, step).fault || Waiting(c, Apply(c, s, step), g, v)
  {
    var t := Apply(c, s, step);
    if !t.fault {
      forall i | 0 <= i < |t.gpus| ensures NotFetched(t, v, i) { assert NotFetched(s, v, i); }
      if step.Enqueue? && Queued(s.gpus[g].execQ, v) { QueuedAppend(s.gpus[g].execQ, ExecArgs(step.e, false)); }
      AwaitsKept(c, s, t, g, v);
    }
  }

  lemma FetchKeepsWaiting(c: Config, s: State, g: nat, v: nat, step: Step)
    requires Waiting(c, s, g, v) && Enabled(c, s, step)
    requires step.FetchPop? || step.FetchTakeSlot? || step.FetchSelect? || step.FetchEvict? || step.FetchAccount? || step.FetchPush?
    ensures Waiting(c, Apply(c, s, step), g, v)
  {
    var t := Apply(c, s, step);
    forall i | 0 <= i < |t.gpus| ensures NotFetched(t, v, i) { assert NotFetched(s, v, i); }
    assert NotFetched(s, v, step.g);
    if step.FetchPush? && Queued(s.gpus[g].execQ, v) {
      QueuedAppend(s.gpus[g].execQ, ExecArgs(s.gpus[step.g].fetch.expert, s.gpus[step.g].overload));
    }
    AwaitsKept(c, s, t, g, v);
  }

  lemma PopKeepsWaiting(c: Config, s: State, g: nat, v: nat, j: nat)
    requires Waiting(c, s, g, v) && CanExecPop(c, s, j)
    ensures Waiting(c, DoExecPop(c, s, j), g, v)
  {
    var t := DoExecPop(c, s, j);
    forall i | 0 <= i < |t.gpus| ensures NotFetched(t, v, i) { assert NotFetched(s, v, i); }
    if Queued(s.gpus[g].execQ, v) && c.threadGpu[j] == g {
      if s.gpus[g].execQ[0].expert == v { assert ThreadAt(t, j, Popped); } else { QueuedTail(s.gpus[g].execQ, v); }
    } else {
      AwaitsKept(c, s, t, g, v);
    }
  }

  lemma ExecKeepsWaiting(c: Config, s: State, g: nat, v: nat, step: Step)
    requires Waiting(c, s, g, v) && Enabled(c, s, step) && !ForwardOf(s, step, v)
    requires step.ExecForward? || step.ExecIdle? || step.ExecOffload? || step.ExecRelease? || step.ExecAccumulate? || step.ExecFinish?
    ensures Waiting(c, Apply(c, s, step), g, v)
  {
    var t := Apply(c, s, step);
    assert s.threads[step.j].args.expert != v;
    forall i | 0 <= i < |t.gpus| ensures NotFetched(t, v, i) { assert NotFetched(s, v, i); }
    AwaitsKept(c, s, t, g, v);
  }

  /** Only its own forward ends v's wait without a fault. */
  lemma StepKeepsWaiting(c: Config, s: State, g: nat, v: nat, step: Step)
    requires Waiting(c, s, g, v) && Enabled(c, s, step) && !ForwardOf(s, step, v)
    ensures Apply(c, s, step).fault || Waiting(c, Apply(c, s, step), g, v)
  {
    if step.BeginRound? || step.Enqueue? || step.EndRound? || step.ClearCount? {
      ClientKeepsWaiting(c, s, g, v, step);
    } else if step.ExecPop? {
      PopKeepsWaiting(c, s, g, v, step.j);
    } else if step.ExecForward? || step.ExecIdle? || step.ExecOffload? || step.ExecRelease? || step.ExecAccumulate? || step.ExecFinish? {
      ExecKeepsWaiting(c, s, g, v, step);
    } else {
      FetchKeepsWaiting(c, s, g, v, step);
    }
  }

  // ---------------------------------------------------------------- before the eviction

  /** Until it evicts, the fetch thread keeps its victim. */
  lemma VictimStays(c: Config, s: State, g: nat, v: nat, step: Step)
    requires Sized(c, s) && Enabled(c, s, step) && step != FetchEvict(g)
    requires g < |s.gpus| && s.gpus[g].fetch.FetchBusy? && s.gpus[g].fetch.stage == HasVictim(v)
    ensures Apply(c, s, step).gpus[g].fetch == s.gpus[g].fetch && Apply(c, s, step).gpus[g].cached == s.gpus[g].cached
  {
  }

  /** The steps neither evict on device g nor run v. */
  predicate Spares(c: Config, s: State, steps: seq<Step>, g: nat, v: nat)
    requires Sized(c, s) && Run(c, s, steps)
    decreases |steps|
  {
    steps == [] ||
    (steps[0] != FetchEvict(g) && !ForwardOf(s, steps[0], v) && Spares(c, Apply(c, s, steps[0]), steps[1..], g, v))
  }

  lemma {:induction false} RunKeepsCondemned(c: Config, s: State, g: nat, v: nat, steps: seq<Step>)
    requires Sized(c, s) && Run(c, s, steps) && Spares(c, s, steps, g, v) && (s.fault || Condemned(c, s, g, v))
    ensures After(c, s, steps).fault || Condemned(c, After(c, s, steps), g, v)
    decreases |steps|
  {
    if steps != [] {
      if s.fault {
        FaultStays(c, s, steps[0]);
      } else {
        StepKeepsWaiting(c, s, g, v, steps[0]);
        VictimStays(c, s, g, v, steps[0]);
      }
      RunKeepsCondemned(c, Apply(c, s, steps[0]), g, v, steps[1..]);
    }
  }

  lemma EvictLoses(c: Config, s: State, g: nat, v: nat)
    requires Condemned(c, s, g, v)
    ensures CanEvict(c, s, g) && Lost(c, DoEvict(c, s, g), g, v)
  {
    FetchKeepsWaiting(c, s, g, v, FetchEvict(g));
  }

  // ---------------------------------------------------------------- after the eviction

  lemma HostStays(c: Config, s: State, g: nat, v: nat, step: Step)
    requires Lost(c, s, g, v) && Enabled(c, s, step)
    ensures Apply(c, s, step).experts[v].device == Host
  {
    if step.FetchAccount? { assert NotFetched(s, v, step.g); }
  }

  /** The forward of v is a fault. */
  lemma LostForward(c: Config, s: State, g: nat, v: nat, j: nat)
    requires Lost(c, s, g, v) && CanForward(c, s, j) && s.threads[j].args.expert == v
    ensures DoForward(c, s, j).fault
  {
  }

  lemma StepKeepsLost(c: Config, s: State, g: nat, v: nat, step: Step)
    requires Lost(c, s, g, v) && Enabled(c, s, step)
    ensures Apply(c, s, step).fault || Lost(c, Apply(c, s, step), g, v)
  {
    if ForwardOf(s, step, v) {
      LostForward(c, s, g, v, step.j);
    } else {
      StepKeepsWaiting(c, s, g, v, step);
      HostStays(c, s, g, v, step);
    }
  }

  /** In every continuation v stays lost until the machine faults. */
  lemma {:induction false} RunKeepsLost(c: Config, s: State, g: nat, v: nat, steps: seq<Step>)
    requires Sized(c, s) && (s.fault || Lost(c, s, g, v)) && Run(c, s, steps)
    ensures After(c, s, steps).fault || Lost(c, After(c, s, steps), g, v)
    decreases |steps|
  {
    if steps != [] {
      if s.fault { FaultStays(c, s, steps[0]); } else { StepKeepsLost(c, s, g, v, steps[0]); }
      RunKeepsLost(c, Apply(c, s, steps[0]), g, v, steps[1..]);
    }
  }

  // ---------------------------------------------------------------- the whole race

  /** Enqueueing a chosen victim of a reachable state condemns it. */
  lemma EnqueueCondemns(c: Config, s: State, g: nat, v: nat, q: nat)
    requires ConfigOk(c) && ForwardOk(c) && Reachable(c, s)
    requires CanEvict(c, s, g) && s.gpus[g].fetch.stage == HasVictim(v) && CanEnqueue(c, s, v, q)
    ensures Condemned(c, DoEnqueue(c, s, v, q), g, v)
  {
    var h := ReachableInv(c, s);
    assert GpuOk(c, s, h, g);
    assert ExpertOk(c, s, h, v);
    assert v !in Active(h);
    QueuedAppend(s.gpus[g].execQ, ExecArgs(v, false));
    var t := DoEnqueue(c, s, v, q);
    forall i | 0 <= i < |t.gpus| ensures NotFetched(t, v, i) { assert GpuOk(c, s, h, i); }
    forall j | 0 <= j < |t.threads| && t.threads[j].ExecBusy? ensures t.threads[j].args.expert != v { assert ThreadOk(c, s, h, j); }
  }

  /** The named assumption is needed in every reachable state with a chosen victim v: enqueue v, let
      anything happen short of the eviction and of v's forward, then evict.  Unless the machine has
      faulted, v is queued with its weights on the host; whatever happens then, atomic or not, it
      stays so until a fault, and its own forward is one. */
  lemma SplitEvictionLosesExpert(c: Config, s: State, g: nat, v: nat, q: nat, between: seq<Step>, steps: seq<Step>)
    requires ConfigOk(c) && ForwardOk(c) && Reachable(c, s)
    requires CanEvict(c, s, g) && s.gpus[g].fetch.stage == HasVictim(v) && CanEnqueue(c, s, v, q)
    requires Sized(c, DoEnqueue(c, s, v, q)) && Run(c, DoEnqueue(c, s, v, q), between)
    requires Spares(c, DoEnqueue(c, s, v, q), between, g, v)
    ensures
      var r := After(c, DoEnqueue(c, s, v, q), between);
      || r.fault
      || (&& CanEvict(c, r, g) && Lost(c, DoEvict(c, r, g), g, v)
          && (Run(c, DoEvict(c, r, g), steps) ==>
                var t := After(c, DoEvict(c, r, g), steps);
                && (t.fault || Lost(c, t, g, v))
                && forall j: nat :: CanForward(c, t, j) && t.threads[j].args.expert == v ==> DoForward(c, t, j).fault))
  {
    EnqueueCondemns(c, s, g, v, q);
    RunKeepsCondemned(c, DoEnqueue(c, s, v, q), g, v, between);
    var r := After(c, DoEnqueue(c, s, v, q), between);
    if !r.fault {
      EvictLoses(c, r, g, v);
      if Run(c, DoEvict(c, r, g), steps) {
        RunKeepsLost(c, DoEvict(c, r, g), g, v, steps);
      }
    }
  }
}
