/**
 * The overload slot and the room of one device.
 *
 * On top of the token discipline, which holds for any sizes: if no exchange of one cached
 * expert for another can pass the limit of device g, the overload flag of g always belongs
 * to one expert, and its room is never overdrawn.
 */
module DispatcherSlots {
  import opened DispatcherModel
  import opened DispatcherInvariant
  import opened DispatcherSteps

  /** Exchanging `v` for `e` in a set of experts that fits device g gives one that fits. */
  ghost predicate SwapFits(c: Config, g: nat, group: set<nat>, v: nat, e: nat)
    requires g < |c.limit|
  {
    v in group && v < |c.nodes| && e !in group && e < |c.nodes| && Bytes(c, group, |c.nodes|) <= c.limit[g] ==>
      Bytes(c, group, |c.nodes|) - c.nodes[v].size + c.nodes[e].size <= c.limit[g]
  }

  /** No exchange of one expert passes the limit of device g. */
  ghost predicate Swap(c: Config, g: nat)
    requires g < |c.limit|
  {
    forall group: set<nat>, v: nat, e: nat :: SwapFits(c, g, group, v, e)
  }

  /** Experts of equal size can be exchanged on every device. */
  lemma UniformSwaps(c: Config, g: nat)
    requires Uniform(c) && g < |c.limit|
    ensures Swap(c, g)
  {
  }

  /** Nothing outside the cache fits the room. */
  ghost predicate Crowded(c: Config, u: Gpu) {
    forall e: nat :: e < |c.nodes| && e !in u.cached ==> u.room < c.nodes[e].size
  }

  /** If one expert does not fit, none does. */
  lemma NoneFits(c: Config, g: nat, u: Gpu, a: nat)
    requires g < |c.limit| && Swap(c, g) && u.room >= 0 && u.room + Bytes(c, u.cached, |c.nodes|) == c.limit[g]
    requires a < |c.nodes| && a !in u.cached && u.room < c.nodes[a].size
    ensures Crowded(c, u)
  {
    forall b: nat | b < |c.nodes| && b !in u.cached ensures u.room < c.nodes[b].size {
      if b != a {
        BytesAdd(c, u.cached, |c.nodes|, b);
        assert SwapFits(c, g, u.cached + {b}, b, a);
      }
    }
  }

  /** Phases of an evicting token before it clears the overload flag. */
  ghost predicate SlotPhase(p: Phase) { p.Popped? || p.Computed? || p.Idled? || p.Offloaded? }

  ghost predicate Evicting(s: State, j: nat) {
    j < |s.threads| && s.threads[j].ExecBusy? && s.threads[j].args.evict && SlotPhase(s.threads[j].phase)
  }

  /** Where the holder of device g's overload slot can be. */
  ghost predicate HoldsSlot(c: Config, s: State, p: Place, g: nat)
    requires Sized(c, s)
  {
    match p
    case AtFetch(g') => g' == g && (FetchAt(s, g, Ready) || FetchAt(s, g, Moved))
    case InExec(g') => g' == g
    case OnThread(j) => Evicting(s, j) && c.threadGpu[j] == g
    case _ => false
  }

  /** The slot is held by at most one expert, only in a prefill and while nothing uncached fits. */
  ghost predicate HolderOk(c: Config, s: State, h: History, g: nat)
    requires Shaped(c, s, h) && g < c.gpus
  {
    var u := s.gpus[g];
    && (u.overload <==> h.owner[g].Some?)
    && (h.owner[g].Some? ==>
          && h.owner[g].value < |c.nodes|
          && h.owner[g].value !in u.cached
          && Crowded(c, u) && |s.inputs.hidden| > 1
          && HoldsSlot(c, s, h.place[h.owner[g].value], g))
    && (forall i :: 0 <= i < |u.execQ| ==> (u.execQ[i].evict <==> h.owner[g] == Some(u.execQ[i].expert)))
  }

  /** The fetch thread stands where the room says. */
  ghost predicate RoomOk(c: Config, s: State, h: History, g: nat)
    requires Shaped(c, s, h) && g < c.gpus
  {
    var u := s.gpus[g];
    && u.room >= 0
    && (u.fetch.FetchBusy? ==>
          match u.fetch.stage
          case NeedSlot => Crowded(c, u) && |s.inputs.hidden| > 1
          case NeedVictim => |s.inputs.hidden| <= 1 && (u.fetch.expert < |c.nodes| ==> u.room < c.nodes[u.fetch.expert].size)
          case HasVictim(_) => |s.inputs.hidden| <= 1 && (u.fetch.expert < |c.nodes| ==> u.room < c.nodes[u.fetch.expert].size)
          case Ready =>
            if u.overload then h.owner[g] == Some(u.fetch.expert)
            else u.fetch.expert < |c.nodes| ==> u.room >= c.nodes[u.fetch.expert].size
          case Moved => u.overload ==> h.owner[g] == Some(u.fetch.expert))
  }

  ghost predicate SlotOk(c: Config, s: State, h: History, g: nat)
    requires Shaped(c, s, h) && g < c.gpus
  {
    HolderOk(c, s, h, g) && RoomOk(c, s, h, g)
  }

  ghost predicate WorkerOk(c: Config, s: State, h: History, g: nat, j: nat)
    requires Shaped(c, s, h) && g < c.gpus && j < |s.threads|
  {
    s.threads[j].ExecBusy? && c.threadGpu[j] == g ==>
      (Evicting(s, j) <==> h.owner[g] == Some(s.threads[j].args.expert))
  }

  /** A resident expert is counted by the cache or holds the slot. */
  ghost predicate ResidentOk(c: Config, s: State, h: History, g: nat, e: nat)
    requires Shaped(c, s, h) && g < c.gpus && e < |c.nodes|
  {
    s.experts[e].device == Cuda(g) ==> e in s.gpus[g].cached || h.owner[g] == Some(e)
  }

  ghost predicate Slots(c: Config, s: State, h: History, g: nat) {
    && Shaped(c, s, h) && g < c.gpus && Swap(c, g)
    && SlotOk(c, s, h, g)
    && (forall j :: 0 <= j < |s.threads| ==> WorkerOk(c, s, h, g, j))
    && (forall e :: 0 <= e < |c.nodes| ==> ResidentOk(c, s, h, g, e))
  }

  lemma SlotsBegin(c: Config, s: State, h: History, g: nat, x: Inputs, plan: set<nat>)
    requires Control(c, s, h) && Slots(c, s, h, g) && CanBegin(c, s, x, plan)
    ensures Slots(c, DoBegin(c, s, x, plan), h, g)
  {
    var t, k := DoBegin(c, s, x, plan), h;
    assert GpuOk(c, s, h, g);
    forall e | 0 <= e < |c.nodes| ensures h.place[e] == Nowhere { assert e !in Active(h); }
    assert SlotOk(c, t, k, g);
    forall i | 0 <= i < |t.threads| ensures WorkerOk(c, t, k, g, i) {
      assert WorkerOk(c, s, h, g, i);
    }
    forall i | 0 <= i < |c.nodes| ensures ResidentOk(c, t, k, g, i) {
      assert ResidentOk(c, s, h, g, i);
    }
  }

  lemma EnqueueSlot(c: Config, s: State, h: History, g: nat, e: nat, d: nat)
    requires Shaped(c, s, h) && g < c.gpus && SlotOk(c, s, h, g) && GpuOk(c, s, h, g)
    requires CanEnqueue(c, s, e, d) && ExpertOk(c, s, h, e) && h.place[e] == Nowhere
    ensures SlotOk(c, DoEnqueue(c, s, e, d), Move(h, e, EnqueuePlace(s, e, d)), g)
  {
    assert s.experts[e].exec == Idle;
    var t, k := DoEnqueue(c, s, e, d), Move(h, e, EnqueuePlace(s, e, d));
    assert HolderOk(c, t, k, g);
    assert RoomOk(c, t, k, g);
  }

  lemma SlotsEnqueue(c: Config, s: State, h: History, g: nat, e: nat, d: nat)
    requires Control(c, s, h) && Slots(c, s, h, g) && CanEnqueue(c, s, e, d) && NotSelected(s, e)
    ensures Slots(c, DoEnqueue(c, s, e, d), Move(h, e, EnqueuePlace(s, e, d)), g)
  {
    var t, k := DoEnqueue(c, s, e, d), Move(h, e, EnqueuePlace(s, e, d));
    assert GpuOk(c, s, h, g) && ExpertOk(c, s, h, e);
    assert e !in Active(h);
    EnqueueSlot(c, s, h, g, e, d);
    forall i | 0 <= i < |t.threads| ensures WorkerOk(c, t, k, g, i) {
      assert WorkerOk(c, s, h, g, i) && ThreadOk(c, s, h, i);
    }
    forall i | 0 <= i < |c.nodes| ensures ResidentOk(c, t, k, g, i) {
      assert ResidentOk(c, s, h, g, i);
    }
  }

  lemma SlotsPop(c: Config, s: State, h: History, g: nat, d: nat)
    requires Control(c, s, h) && Slots(c, s, h, g) && CanPop(c, s, d)
    ensures Slots(c, DoPop(c, s, d), Move(h, s.gpus[d].inputQ[0], AtFetch(d)), g)
  {
    var t, k := DoPop(c, s, d), Move(h, s.gpus[d].inputQ[0], AtFetch(d));
    assert GpuOk(c, s, h, g);
    assert GpuOk(c, s, h, d);
    assert PlacedAt(c, h, s.gpus[d].inputQ[0], InInput(d));
    assert ExpertOk(c, s, h, s.gpus[d].inputQ[0]);
    if d == g && t.gpus[g].fetch.stage.NeedSlot? { NoneFits(c, g, s.gpus[g], s.gpus[g].inputQ[0]); }
    assert SlotOk(c, t, k, g);
    forall i | 0 <= i < |t.threads| ensures WorkerOk(c, t, k, g, i) {
      assert WorkerOk(c, s, h, g, i) && ThreadOk(c, s, h, i);
    }
    forall i | 0 <= i < |c.nodes| ensures ResidentOk(c, t, k, g, i) {
      assert ResidentOk(c, s, h, g, i);
    }
  }

  lemma SlotsTakeSlot(c: Config, s: State, h: History, g: nat, d: nat)
    requires Control(c, s, h) && Slots(c, s, h, g) && CanTakeSlot(s, d)
    ensures Slots(c, DoTakeSlot(s, d), SetOwner(h, d, Some(s.gpus[d].fetch.expert)), g)
  {
    var t, k := DoTakeSlot(s, d), SetOwner(h, d, Some(s.gpus[d].fetch.expert));
    assert GpuOk(c, s, h, g);
    assert GpuOk(c, s, h, d);
    assert ExpertOk(c, s, h, s.gpus[d].fetch.expert);
    assert SlotOk(c, t, k, g);
    forall i | 0 <= i < |t.threads| ensures WorkerOk(c, t, k, g, i) {
      assert WorkerOk(c, s, h, g, i) && ThreadOk(c, s, h, i);
    }
    forall i | 0 <= i < |c.nodes| ensures ResidentOk(c, t, k, g, i) {
      assert ResidentOk(c, s, h, g, i);
    }
  }

  lemma SlotsSelect(c: Config, s: State, h: History, g: nat, d: nat, v: nat)
    requires Control(c, s, h) && Slots(c, s, h, g) && CanSelect(c, s, d, v)
    ensures Slots(c, DoSelect(s, d, v), h, g)
  {
    var t, k := DoSelect(s, d, v), h;
    assert GpuOk(c, s, h, g);
    assert SlotOk(c, t, k, g);
    forall i | 0 <= i < |t.threads| ensures WorkerOk(c, t, k, g, i) {
      assert WorkerOk(c, s, h, g, i);
    }
    forall i | 0 <= i < |c.nodes| ensures ResidentOk(c, t, k, g, i) {
      assert ResidentOk(c, s, h, g, i);
    }
  }

  lemma SlotsEvict(c: Config, s: State, h: History, g: nat, d: nat)
    requires Control(c, s, h) && Slots(c, s, h, g) && CanEvict(c, s, d)
    ensures Slots(c, DoEvict(c, s, d), h, g)
  {
    var t, k := DoEvict(c, s, d), h;
    assert GpuOk(c, s, h, g);
    assert GpuOk(c, s, h, d);
    assert ExpertOk(c, s, h, s.gpus[d].fetch.expert);
    assert SwapFits(c, g, s.gpus[g].cached, s.gpus[d].fetch.stage.victim, s.gpus[d].fetch.expert);
    assert SlotOk(c, t, k, g);
    forall i | 0 <= i < |t.threads| ensures WorkerOk(c, t, k, g, i) {
      assert WorkerOk(c, s, h, g, i);
    }
    forall i | 0 <= i < |c.nodes| ensures ResidentOk(c, t, k, g, i) {
      assert ResidentOk(c, s, h, g, i);
    }
  }

  lemma SlotsAccount(c: Config, s: State, h: History, g: nat, d: nat)
    requires Control(c, s, h) && Slots(c, s, h, g) && CanAccount(c, s, d)
    ensures Slots(c, DoAccount(c, s, d), h, g)
  {
    var t, k := DoAccount(c, s, d), h;
    assert GpuOk(c, s, h, g);
    assert GpuOk(c, s, h, d);
    assert ExpertOk(c, s, h, s.gpus[d].fetch.expert);
    assert SlotOk(c, t, k, g);
    forall i | 0 <= i < |t.threads| ensures WorkerOk(c, t, k, g, i) {
      assert WorkerOk(c, s, h, g, i) && ThreadOk(c, s, h, i);
    }
    forall i | 0 <= i < |c.nodes| ensures ResidentOk(c, t, k, g, i) {
      assert ResidentOk(c, s, h, g, i);
    }
  }

  lemma SlotsPush(c: Config, s: State, h: History, g: nat, d: nat)
    requires Control(c, s, h) && Slots(c, s, h, g) && CanPush(c, s, d)
    ensures Slots(c, DoPush(s, d), Move(h, s.gpus[d].fetch.expert, InExec(d)), g)
  {
    var t, k := DoPush(s, d), Move(h, s.gpus[d].fetch.expert, InExec(d));
    assert GpuOk(c, s, h, g);
    assert GpuOk(c, s, h, d);
    assert SlotOk(c, t, k, g);
    forall i | 0 <= i < |t.threads| ensures WorkerOk(c, t, k, g, i) {
      assert WorkerOk(c, s, h, g, i) && ThreadOk(c, s, h, i);
    }
    forall i | 0 <= i < |c.nodes| ensures ResidentOk(c, t, k, g, i) {
      assert ResidentOk(c, s, h, g, i);
    }
  }

  lemma SlotsExecPop(c: Config, s: State, h: History, g: nat, j: nat)
    requires Control(c, s, h) && Slots(c, s, h, g) && CanExecPop(c, s, j)
    ensures Slots(c, DoExecPop(c, s, j), Move(h, s.gpus[c.threadGpu[j]].execQ[0].expert, OnThread(j)), g)
  {
    var t, k := DoExecPop(c, s, j), Move(h, s.gpus[c.threadGpu[j]].execQ[0].expert, OnThread(j));
    assert GpuOk(c, s, h, g);
    assert GpuOk(c, s, h, c.threadGpu[j]);
    assert SlotOk(c, t, k, g);
    forall i | 0 <= i < |t.threads| ensures WorkerOk(c, t, k, g, i) {
      assert WorkerOk(c, s, h, g, i) && ThreadOk(c, s, h, i);
    }
    forall i | 0 <= i < |c.nodes| ensures ResidentOk(c, t, k, g, i) {
      assert ResidentOk(c, s, h, g, i);
    }
  }

  lemma SlotsForward(c: Config, s: State, h: History, g: nat, j: nat)
    requires Control(c, s, h) && Slots(c, s, h, g) && CanForward(c, s, j)
    ensures Slots(c, DoForward(c, s, j), h, g)
  {
    var t, k := DoForward(c, s, j), h;
    assert GpuOk(c, s, h, g);
    assert ThreadOk(c, s, h, j) && WorkerOk(c, s, h, g, j);
    assert ExpertOk(c, s, h, s.threads[j].args.expert);
    assert SlotOk(c, t, k, g);
    forall i | 0 <= i < |t.threads| ensures WorkerOk(c, t, k, g, i) {
      assert WorkerOk(c, s, h, g, i) && ThreadOk(c, s, h, i);
    }
    forall i | 0 <= i < |c.nodes| ensures ResidentOk(c, t, k, g, i) {
      assert ResidentOk(c, s, h, g, i);
    }
  }

  lemma SlotsIdle(c: Config, s: State, h: History, g: nat, j: nat)
    requires Control(c, s, h) && Slots(c, s, h, g) && CanIdle(c, s, j)
    ensures Slots(c, DoIdle(c, s, j), h, g)
  {
    var t, k := DoIdle(c, s, j), h;
    assert GpuOk(c, s, h, g);
    assert ThreadOk(c, s, h, j) && WorkerOk(c, s, h, g, j);
    assert ExpertOk(c, s, h, s.threads[j].args.expert);
    assert SlotOk(c, t, k, g);
    forall i | 0 <= i < |t.threads| ensures WorkerOk(c, t, k, g, i) {
      assert WorkerOk(c, s, h, g, i) && ThreadOk(c, s, h, i);
    }
    forall i | 0 <= i < |c.nodes| ensures ResidentOk(c, t, k, g, i) {
      assert ResidentOk(c, s, h, g, i);
    }
  }

  lemma SlotsOffload(c: Config, s: State, h: History, g: nat, j: nat)
    requires Control(c, s, h) && Slots(c, s, h, g) && CanOffload(c, s, j)
    ensures Slots(c, DoOffload(c, s, j), h, g)
  {
    var t, k := DoOffload(c, s, j), h;
    assert GpuOk(c, s, h, g);
    assert ThreadOk(c, s, h, j) && WorkerOk(c, s, h, g, j);
    assert ExpertOk(c, s, h, s.threads[j].args.expert);
    assert SlotOk(c, t, k, g);
    forall i | 0 <= i < |t.threads| ensures WorkerOk(c, t, k, g, i) {
      assert WorkerOk(c, s, h, g, i) && ThreadOk(c, s, h, i);
    }
    forall i | 0 <= i < |c.nodes| ensures ResidentOk(c, t, k, g, i) {
      assert ResidentOk(c, s, h, g, i);
    }
  }

  lemma SlotsAccumulate(c: Config, s: State, h: History, g: nat, j: nat)
    requires Control(c, s, h) && Slots(c, s, h, g) && CanAccumulate(c, s, j)
    ensures Slots(c, DoAccumulate(c, s, j), h, g)
  {
    var t, k := DoAccumulate(c, s, j), h;
    assert GpuOk(c, s, h, g);
    assert ThreadOk(c, s, h, j) && WorkerOk(c, s, h, g, j);
    assert ExpertOk(c, s, h, s.threads[j].args.expert);
    assert SlotOk(c, t, k, g);
    forall i | 0 <= i < |t.threads| ensures WorkerOk(c, t, k, g, i) {
      assert WorkerOk(c, s, h, g, i) && ThreadOk(c, s, h, i);
    }
    forall i | 0 <= i < |c.nodes| ensures ResidentOk(c, t, k, g, i) {
      assert ResidentOk(c, s, h, g, i);
    }
  }

  lemma SlotsRelease(c: Config, s: State, h: History, g: nat, j: nat)
    requires Control(c, s, h) && Slots(c, s, h, g) && CanRelease(c, s, j)
    ensures Slots(c, DoRelease(c, s, j), SetOwner(h, c.threadGpu[j], None), g)
  {
    var t, k := DoRelease(c, s, j), SetOwner(h, c.threadGpu[j], None);
    assert GpuOk(c, s, h, g);
    assert ThreadOk(c, s, h, j) && WorkerOk(c, s, h, g, j);
    assert ExpertOk(c, s, h, s.threads[j].args.expert);
    assert SlotOk(c, t, k, g);
    forall i | 0 <= i < |t.threads| ensures WorkerOk(c, t, k, g, i) {
      assert WorkerOk(c, s, h, g, i) && ThreadOk(c, s, h, i);
    }
    forall i | 0 <= i < |c.nodes| ensures ResidentOk(c, t, k, g, i) {
      assert ResidentOk(c, s, h, g, i);
    }
  }

  lemma SlotsFinish(c: Config, s: State, h: History, g: nat, j: nat)
    requires Control(c, s, h) && Slots(c, s, h, g) && CanFinish(c, s, j)
    ensures Slots(c, DoFinish(s, j), Move(h, s.threads[j].args.expert, Nowhere), g)
  {
    var t, k := DoFinish(s, j), Move(h, s.threads[j].args.expert, Nowhere);
    assert GpuOk(c, s, h, g);
    assert ThreadOk(c, s, h, j) && WorkerOk(c, s, h, g, j);
    assert SlotOk(c, t, k, g);
    forall i | 0 <= i < |t.threads| ensures WorkerOk(c, t, k, g, i) {
      assert WorkerOk(c, s, h, g, i) && ThreadOk(c, s, h, i);
    }
    forall i | 0 <= i < |c.nodes| ensures ResidentOk(c, t, k, g, i) {
      assert ResidentOk(c, s, h, g, i);
    }
  }

  lemma SlotsEnd(c: Config, s: State, h: History, g: nat)
    requires Slots(c, s, h, g)
    ensures Slots(c, s.(client := Resting), h, g)
  {
    var t := s.(client := Resting);
    assert SlotOk(c, t, h, g);
    forall i | 0 <= i < |t.threads| ensures WorkerOk(c, t, h, g, i) {
      assert WorkerOk(c, s, h, g, i);
    }
    forall i | 0 <= i < |c.nodes| ensures ResidentOk(c, t, h, g, i) {
      assert ResidentOk(c, s, h, g, i);
    }
  }

  lemma SlotsClear(c: Config, s: State, h: History, g: nat, e: nat)
    requires Slots(c, s, h, g) && e < |c.nodes|
    ensures Slots(c, DoClear(c, s, e), h, g)
  {
    var t := DoClear(c, s, e);
    assert SlotOk(c, t, h, g);
    forall i | 0 <= i < |t.threads| ensures WorkerOk(c, t, h, g, i) {
      assert WorkerOk(c, s, h, g, i);
    }
    forall i | 0 <= i < |c.nodes| ensures ResidentOk(c, t, h, g, i) {
      assert ResidentOk(c, s, h, g, i);
    }
  }
}
