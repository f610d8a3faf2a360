/**
 * The dispatcher as an object: one method per step.  Every state of the object is one that the
 * step machine reaches, so what holds over all runs holds of the object after every call.
 */
module DispatcherClass {
  import opened DispatcherModel
  import opened DispatcherSlots
  import opened DispatcherTheorems
  import opened DispatcherEffects

  datatype Scan = NoVictim | Victim(expert: nat)

  /** index_add_ as a loop. */
  method AddMasked(acc: seq<Row>, idx: seq<nat>, rows: seq<Row>, weight: seq<seq<real>>, col: nat) returns (sum: seq<Row>)
    requires |idx| == |rows| && HasColumn(weight, col) && |weight| == |acc|
    requires forall k :: 0 <= k < |idx| ==> idx[k] < |acc| && |rows[k]| == |acc[idx[k]]|
    ensures sum == IndexAdd(acc, idx, rows, weight, col, |idx|)
  {
    sum := acc;
    for k := 0 to |idx|
      invariant sum == IndexAdd(acc, idx, rows, weight, col, k)
    {
      sum := sum[idx[k] := AddScaled(sum[idx[k]], rows[k], weight[idx[k]][col])];
    }
  }

  class ExpertDispatcher {
    const config: Config
    var experts: seq<Expert>
    var gpus: seq<Gpu>
    var threads: seq<ExecPc>
    var inputs: Inputs
    var acc: seq<Row>
    var pending: int
    var client: Client
    var fault: bool

    ghost function Snapshot(): State
      reads this
    {
      State(experts, gpus, threads, inputs, acc, pending, client, fault)
    }

    ghost predicate Valid()
      reads this
    {
      Alive(config, Snapshot())
    }

    /** All experts idle on the host, all memory free. */
    constructor (c: Config)
      requires ConfigOk(c) && ForwardOk(c)
      ensures Valid() && config == c && Snapshot() == Init(c)
    {
      StartsAlive(c);
      config := c;
      experts := seq(|c.nodes|, _ => Expert(Idle, Host, 0));
      var us := [];
      for g := 0 to c.gpus
        invariant |us| == g && forall i :: 0 <= i < g ==> us[i] == Gpu([], FetchFree, [], c.limit[i], {}, false)
      {
        us := us + [Gpu([], FetchFree, [], c.limit[g], {}, false)];
      }
      gpus := us;
      threads := seq(|c.threadGpu|, _ => ExecFree);
      inputs, acc, pending, client, fault := Inputs([], [], []), [], 0, Resting, false;
    }

    /** SetInputs and SetExpectedQueue. */
    method BeginRound(x: Inputs, plan: set<nat>)
      requires Valid() && CanBegin(config, Snapshot(), x, plan)
      modifies this
      ensures Valid() && Snapshot() == DoBegin(config, old(Snapshot()), x, plan)
      ensures Begun(config, Snapshot(), x, plan)
    {
      BeginEffect(config, Snapshot(), x, plan);
      inputs := x;
      acc := ZeroRows(|x.hidden|, config.dim);
      pending := |plan|;
      client := InRound(plan, plan);
    }

    method Enqueue(e: nat, g: nat)
      requires Valid() && CanEnqueue(config, Snapshot(), e, g) && NotSelected(Snapshot(), e)
      modifies this
      ensures Valid() && Snapshot() == DoEnqueue(config, old(Snapshot()), e, g)
      ensures Enqueued(config, old(Snapshot()), Snapshot(), e, g)
    {
      ghost var before := Snapshot();
      if experts[e].exec != Idle {
        fault := true;
      } else {
        experts := experts[e := experts[e].(exec := Fetching)];
        client := client.(todo := client.todo - {e});
        if experts[e].device.Cuda? {
          var h := experts[e].device.gpu;
          if h < config.gpus {
            gpus := gpus[h := gpus[h].(execQ := gpus[h].execQ + [ExecArgs(e, false)])];
          } else {
            fault := true;
          }
        } else {
          gpus := gpus[g := gpus[g].(inputQ := gpus[g].inputQ + [e])];
        }
      }
      EnqueueEffect(config, before, e, g);
    }

    /** Scan of the cached experts, in whatever order the hash set yields them: the
        first least-visited idle one on the device, or nothing. */
    method FindExpertEvict(g: nat) returns (r: Scan)
      requires Valid() && g < config.gpus
      ensures r.NoVictim? <==> forall v :: v in gpus[g].cached ==> !Evictable(config, Snapshot(), g, v)
      ensures r.Victim? ==> LeastVisited(config, Snapshot(), g, r.expert)
    {
      r := NoVictim;
      var least: nat := INT_MAX;
      var rest := gpus[g].cached;
      while rest != {}
        invariant rest <= gpus[g].cached
        invariant r.NoVictim? ==> least == INT_MAX
        invariant r.NoVictim? ==> forall v :: v in gpus[g].cached - rest ==> !Evictable(config, Snapshot(), g, v)
        invariant r.Victim? ==> Evictable(config, Snapshot(), g, r.expert) && experts[r.expert].visits == least
        invariant forall u :: u in gpus[g].cached - rest && Evictable(config, Snapshot(), g, u) ==> least <= experts[u].visits
        decreases rest
      {
        var v :| v in rest;
        rest := rest - {v};
        if v < |experts| && experts[v].device.Cuda? && experts[v].visits < least && experts[v].exec == Idle {
          r := Victim(v);
          least := experts[v].visits;
        }
      }
    }

    method FetchPop(g: nat)
      requires Valid() && CanPop(config, Snapshot(), g)
      modifies this`gpus
      ensures Valid() && Snapshot() == DoPop(config, old(Snapshot()), g)
      ensures Fetched(config, old(Snapshot()), Snapshot(), g, old(gpus[g].inputQ[0]))
    {
      ghost var before := Snapshot();
      var u := gpus[g];
      var e := u.inputQ[0];
      var stage := Ready;
      if !experts[e].device.Cuda? && u.room < config.nodes[e].size {
        stage := if |inputs.hidden| > 1 then NeedSlot else NeedVictim;
      }
      gpus := gpus[g := u.(inputQ := u.inputQ[1..], fetch := FetchBusy(e, stage))];
      PopEffect(config, before, g);
    }

    /** Where experts can be exchanged, the slot is taken only in a prefill when nothing uncached fits. */
    method FetchTakeSlot(g: nat)
      requires Valid() && CanTakeSlot(Snapshot(), g)
      modifies this`gpus
      ensures Valid() && Snapshot() == DoTakeSlot(old(Snapshot()), g)
      ensures Swap(config, g) ==> Crowded(config, old(gpus[g])) && |inputs.hidden| > 1
    {
      TakeSlotEffect(config, Snapshot(), g);
      gpus := gpus[g := gpus[g].(overload := true, fetch := gpus[g].fetch.(stage := Ready))];
    }

    /** The batch-of-one branch: scan, and keep the victim if there is one. */
    method FetchSelect(g: nat) returns (found: bool)
      requires Valid() && FetchAt(Snapshot(), g, NeedVictim)
      modifies this`gpus
      ensures Valid()
      ensures found ==> exists v :: CanSelect(config, old(Snapshot()), g, v) && Snapshot() == DoSelect(old(Snapshot()), g, v)
      ensures !found ==> Snapshot() == old(Snapshot())
    {
      var r := FindExpertEvict(g);
      found := r.Victim?;
      if found {
        ghost var before := Snapshot();
        SelectEffect(config, before, g, r.expert);
        gpus := gpus[g := gpus[g].(fetch := gpus[g].fetch.(stage := HasVictim(r.expert)))];
        assert CanSelect(config, before, g, r.expert) && Snapshot() == DoSelect(before, g, r.expert);
      }
    }

    method FetchEvict(g: nat)
      requires Valid() && CanEvict(config, Snapshot(), g)
      modifies this
      ensures Valid() && Snapshot() == DoEvict(config, old(Snapshot()), g)
      ensures Evicted(config, old(Snapshot()), Snapshot(), g, old(gpus[g].fetch.stage.victim))
    {
      ghost var before := Snapshot();
      var u := gpus[g];
      var v := u.fetch.stage.victim;
      experts := experts[v := experts[v].(device := Host)];
      if v !in u.cached {
        fault := true;
      }
      gpus := gpus[g := u.(room := u.room + config.nodes[v].size, cached := u.cached - {v}, fetch := u.fetch.(stage := Ready))];
      EvictEffect(config, before, g);
    }

    method FetchAccount(g: nat)
      requires Valid() && CanAccount(config, Snapshot(), g)
      modifies this`gpus, this`experts
      ensures Valid() && Snapshot() == DoAccount(config, old(Snapshot()), g)
      ensures Accounted(config, old(Snapshot()), Snapshot(), g, old(gpus[g].fetch.expert))
    {
      ghost var before := Snapshot();
      var u := gpus[g];
      var e := u.fetch.expert;
      if !u.overload {
        u := u.(room := u.room - config.nodes[e].size, cached := u.cached + {e});
      }
      var device := experts[e].device;
      if device.Host? {
        device := Cuda(g);
      }
      experts := experts[e := experts[e].(device := device, visits := experts[e].visits + 1)];
      gpus := gpus[g := u.(fetch := u.fetch.(stage := Moved))];
      assert Snapshot() == DoAccount(config, before, g);
      AccountEffect(config, before, g);
    }

    /** The expert's one token is at the back of the exec queue of the device it is on. */
    method FetchPush(g: nat)
      requires Valid() && CanPush(config, Snapshot(), g)
      modifies this`gpus
      ensures Valid() && Snapshot() == DoPush(old(Snapshot()), g)
      ensures var e := old(gpus[g].fetch.expert);
              && gpus[g].execQ == old(gpus[g].execQ) + [ExecArgs(e, old(gpus[g].overload))]
              && OnlyAt(Snapshot(), e, ExecSlot(g, |gpus[g].execQ| - 1)) && experts[e].device == Cuda(g)
              && (Swap(config, g) ==> (old(gpus[g].overload) <==> e !in gpus[g].cached))
    {
      PushEffect(config, Snapshot(), g);
      var u := gpus[g];
      gpus := gpus[g := u.(execQ := u.execQ + [ExecArgs(u.fetch.expert, u.overload)], fetch := FetchFree)];
    }

    /** The popped expert is on this thread's device and has no other token. */
    method ExecPop(j: nat)
      requires Valid() && CanExecPop(config, Snapshot(), j)
      modifies this`gpus, this`threads
      ensures Valid() && Snapshot() == DoExecPop(config, old(Snapshot()), j)
      ensures var e := old(gpus[config.threadGpu[j]].execQ[0].expert);
              && gpus[config.threadGpu[j]].execQ == old(gpus[config.threadGpu[j]].execQ[1..])
              && OnlyAt(Snapshot(), e, Worker(j)) && experts[e].device == Cuda(config.threadGpu[j])
    {
      ExecPopEffect(config, Snapshot(), j);
      var g := config.threadGpu[j];
      var args := gpus[g].execQ[0];
      gpus := gpus[g := gpus[g].(execQ := gpus[g].execQ[1..])];
      threads := threads[j := ExecBusy(args, Popped, [])];
    }

    method ExecForward(j: nat)
      requires Valid() && CanForward(config, Snapshot(), j)
      modifies this`threads, this`fault
      ensures Valid() && Snapshot() == DoForward(config, old(Snapshot()), j)
      ensures Ran(config, Snapshot(), j, old(threads[j].args.expert))
    {
      ghost var before := Snapshot();
      var args := threads[j].args;
      var rows := InputRows(config, inputs, args.expert);
      if experts[args.expert].device != Cuda(config.threadGpu[j]) || |rows| == 0 || |rows| > MAX_TOKENS {
        fault := true;
      } else {
        threads := threads[j := ExecBusy(args, Computed, ForwardRows(config, args.expert, rows))];
      }
      ForwardEffect(config, before, j);
    }

    /** The expert is IDLE while its one token is still on this thread. */
    method ExecIdle(j: nat)
      requires Valid() && CanIdle(config, Snapshot(), j)
      modifies this`threads, this`experts
      ensures Valid() && Snapshot() == DoIdle(config, old(Snapshot()), j)
      ensures var e := old(threads[j].args.expert); experts[e].exec == Idle && OnlyAt(Snapshot(), e, Worker(j))
    {
      IdleEffect(config, Snapshot(), j);
      var e := threads[j].args.expert;
      experts := experts[e := experts[e].(exec := Idle)];
      threads := threads[j := threads[j].(phase := Idled)];
    }

    method ExecOffload(j: nat)
      requires Valid() && CanOffload(config, Snapshot(), j)
      modifies this`threads, this`experts
      ensures Valid() && Snapshot() == DoOffload(config, old(Snapshot()), j)
      ensures AllCounted(config, Snapshot(), config.threadGpu[j])
    {
      OffloadEffect(config, Snapshot(), j);
      var e := threads[j].args.expert;
      experts := experts[e := experts[e].(device := Host)];
      threads := threads[j := threads[j].(phase := Offloaded)];
    }

    method ExecRelease(j: nat)
      requires Valid() && CanRelease(config, Snapshot(), j)
      modifies this`threads, this`gpus
      ensures Valid() && Snapshot() == DoRelease(config, old(Snapshot()), j)
      ensures AllCounted(config, Snapshot(), config.threadGpu[j]) && !gpus[config.threadGpu[j]].overload
    {
      ReleaseEffect(config, Snapshot(), j);
      var g := config.threadGpu[j];
      gpus := gpus[g := gpus[g].(overload := false)];
      threads := threads[j := threads[j].(phase := Released)];
    }

    /** The locked accumulation; the masked path adds the selected rows one by one. */
    method ExecAccumulate(j: nat)
      requires Valid() && CanAccumulate(config, Snapshot(), j)
      modifies this`threads, this`acc
      ensures Valid() && Snapshot() == DoAccumulate(config, old(Snapshot()), j)
      ensures Added(config, old(Snapshot()), Snapshot(), old(threads[j].args.expert))
    {
      AccumulateEffect(config, Snapshot(), j);
      var e, out := threads[j].args.expert, threads[j].out;
      var col := config.nodes[e].column;
      if |inputs.hidden| == 1 {
        acc := [AddScaled(acc[0], out[0], inputs.weight[0][col])];
      } else {
        acc := AddMasked(acc, Selected(inputs.mask, col, |inputs.mask|), out, inputs.weight, col);
      }
      threads := threads[j := threads[j].(phase := Accumulated)];
    }

    method ExecFinish(j: nat)
      requires Valid() && CanFinish(config, Snapshot(), j)
      modifies this`threads, this`pending
      ensures Valid() && Snapshot() == DoFinish(old(Snapshot()), j)
      ensures Done(Snapshot(), old(threads[j].args.expert))
    {
      FinishEffect(config, Snapshot(), j);
      threads := threads[j := ExecFree];
      pending := pending - 1;
    }

    /** One store after the other. */
    method ClearExpertCacheCounts()
      requires Valid()
      modifies this`experts
      ensures Valid() && Cleared(old(Snapshot()), Snapshot(), |experts|)
    {
      for e := 0 to |experts|
        invariant Valid() && Cleared(old(Snapshot()), Snapshot(), e)
      {
        ClearEffect(config, Snapshot(), e);
        experts := experts[e := experts[e].(visits := 0)];
      }
    }

    /** WaitHiddenStates once the barrier is open. */
    method EndRound() returns (result: seq<Row>)
      requires Valid() && CanEnd(Snapshot())
      modifies this`client
      ensures Valid() && client == Resting
      ensures Summed(config, inputs, old(client.plan), result)
    {
      EndEffect(config, Snapshot());
      client := Resting;
      result := acc;
    }
  }
}
