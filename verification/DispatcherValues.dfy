/** What the accumulator holds at every step, and how one output is added to it. */
module DispatcherValues {
  import opened DispatcherModel
  import opened DispatcherInvariant
  import opened DispatcherSteps

  /** index_add_ adds row k to row idx[k] and leaves every other row alone. */
  lemma {:induction false} IndexAddAt(acc: seq<Row>, idx: seq<nat>, rows: seq<Row>, weight: seq<seq<real>>, col: nat, m: nat, t: nat)
    requires m <= |idx| == |rows| && HasColumn(weight, col) && |weight| == |acc| && t < |acc|
    requires forall k :: 0 <= k < |idx| ==> idx[k] < |acc| && |rows[k]| == |acc[idx[k]]|
    requires forall i, k :: 0 <= i < k < |idx| ==> idx[i] < idx[k]
    ensures forall k :: 0 <= k < m && idx[k] == t ==>
              IndexAdd(acc, idx, rows, weight, col, m)[t] == AddScaled(acc[t], rows[k], weight[t][col])
    ensures t !in idx[..m] ==> IndexAdd(acc, idx, rows, weight, col, m)[t] == acc[t]
  {
    if m > 0 {
      IndexAddAt(acc, idx, rows, weight, col, m - 1, t);
      assert idx[..m] == idx[..m - 1] + [idx[m - 1]];
    }
  }

  lemma OutputFits(c: Config, x: Inputs, e: nat)
    requires ForwardOk(c) && InputsOk(c, x) && e < |c.nodes|
    ensures OutputOk(c, x, e, ForwardRows(c, e, InputRows(c, x, e)))
  {
  }

  lemma MaskedRowAdds(c: Config, x: Inputs, acc: seq<Row>, e: nat, t: nat)
    requires ForwardOk(c) && InputsOk(c, x) && e < |c.nodes| && |x.hidden| != 1
    requires MatrixOk(acc, |x.hidden|, c.dim) && t < |x.hidden|
    requires OutputOk(c, x, e, ForwardRows(c, e, InputRows(c, x, e)))
    ensures
      var col := c.nodes[e].column;
      Accumulate(c, x, acc, e, ForwardRows(c, e, InputRows(c, x, e)))[t] ==
        if x.mask[t][col] then AddScaled(acc[t], c.forward(e, x.hidden[t]), x.weight[t][col]) else acc[t]
  {
    var col := c.nodes[e].column;
    var out := ForwardRows(c, e, InputRows(c, x, e));
    var idx := Selected(x.mask, col, |x.mask|);
    IndexAddAt(acc, idx, out, x.weight, col, |idx|, t);
    assert idx[..|idx|] == idx;
    if x.mask[t][col] {
      var i :| 0 <= i < |idx| && idx[i] == t;
      assert out[i] == c.forward(e, x.hidden[t]);
    }
  }

  /** One accumulation adds exactly the weighted output of one expert, on both paths. */
  lemma AccumulateAdds(c: Config, x: Inputs, acc: seq<Row>, e: nat, t: nat, k: nat)
    requires ForwardOk(c) && InputsOk(c, x) && e < |c.nodes| && Routed(c, x, e)
    requires MatrixOk(acc, |x.hidden|, c.dim) && t < |x.hidden| && k < c.dim
    requires OutputOk(c, x, e, ForwardRows(c, e, InputRows(c, x, e)))
    ensures Accumulate(c, x, acc, e, ForwardRows(c, e, InputRows(c, x, e)))[t][k] == acc[t][k] + Contribution(c, x, e, t, k)
  {
    RowAdds(c, x, acc, e, t);
    CellAdds(c, x, acc[t], e, t, k, Accumulate(c, x, acc, e, ForwardRows(c, e, InputRows(c, x, e)))[t]);
  }

  lemma CellAdds(c: Config, x: Inputs, was: Row, e: nat, t: nat, k: nat, row: Row)
    requires ForwardOk(c) && InputsOk(c, x) && e < |c.nodes| && t < |x.hidden| && k < c.dim == |was|
    requires var col := c.nodes[e].column;
             row == if x.mask[t][col] then AddScaled(was, c.forward(e, x.hidden[t]), x.weight[t][col]) else was
    ensures row[k] == was[k] + Contribution(c, x, e, t, k)
  {
  }

  lemma SingleRowAdds(c: Config, x: Inputs, acc: seq<Row>, e: nat)
    requires ForwardOk(c) && InputsOk(c, x) && e < |c.nodes| && Routed(c, x, e) && |x.hidden| == 1
    requires MatrixOk(acc, 1, c.dim) && OutputOk(c, x, e, ForwardRows(c, e, InputRows(c, x, e)))
    ensures x.mask[0][c.nodes[e].column]
    ensures Accumulate(c, x, acc, e, ForwardRows(c, e, InputRows(c, x, e)))[0]
            == AddScaled(acc[0], c.forward(e, x.hidden[0]), x.weight[0][c.nodes[e].column])
  {
    assert Selected(x.mask, c.nodes[e].column, |x.mask|)[0] == 0;
  }

  lemma RowAdds(c: Config, x: Inputs, acc: seq<Row>, e: nat, t: nat)
    requires ForwardOk(c) && InputsOk(c, x) && e < |c.nodes| && Routed(c, x, e)
    requires MatrixOk(acc, |x.hidden|, c.dim) && t < |x.hidden|
    requires OutputOk(c, x, e, ForwardRows(c, e, InputRows(c, x, e)))
    ensures
      var col := c.nodes[e].column;
      Accumulate(c, x, acc, e, ForwardRows(c, e, InputRows(c, x, e)))[t] ==
        if x.mask[t][col] then AddScaled(acc[t], c.forward(e, x.hidden[t]), x.weight[t][col]) else acc[t]
  {
    if |x.hidden| == 1 { SingleRowAdds(c, x, acc, e); } else { MaskedRowAdds(c, x, acc, e, t); }
  }

  /** The single-token path and the masked path add the same row. */
  lemma SingleTokenPathAgrees(c: Config, x: Inputs, acc: seq<Row>, e: nat)
    requires ForwardOk(c) && InputsOk(c, x) && e < |c.nodes| && Routed(c, x, e)
    requires |x.hidden| == 1 && MatrixOk(acc, 1, c.dim)
    ensures OutputOk(c, x, e, ForwardRows(c, e, InputRows(c, x, e)))
    ensures
      var idx := Selected(x.mask, c.nodes[e].column, 1);
      && idx == [0]
      && IndexAdd(acc, idx, ForwardRows(c, e, [x.hidden[0]]), x.weight, c.nodes[e].column, 1)
         == Accumulate(c, x, acc, e, ForwardRows(c, e, InputRows(c, x, e)))
  {
    var col := c.nodes[e].column;
    var idx := Selected(x.mask, col, 1);
    assert idx[0] == 0;
    var out := ForwardRows(c, e, [x.hidden[0]]);
    var r := IndexAdd(acc, idx, out, x.weight, col, 1);
    assert IndexAdd(acc, idx, out, x.weight, col, 0) == acc;
    assert x.hidden == [x.hidden[0]];
    assert r[0] == AddScaled(acc[0], out[0], x.weight[0][col]);
  }

  // ---------------------------------------------------------------- steps and values

  /** A step that keeps inputs, accumulator, outputs and the contributed set keeps the values. */
  lemma ValuesFrame(c: Config, s: State, h: History, t: State, k: History)
    requires Shaped(c, s, h) && Shaped(c, t, k) && ForwardOk(c) && ValuesAgree(c, s, h)
    requires t.inputs == s.inputs && t.acc == s.acc && s.client.InRound? && t.client.InRound?
    requires Contributed(c, t, k) == Contributed(c, s, h)
    requires forall j :: 0 <= j < |t.threads| && t.threads[j].ExecBusy? && HasOutput(t.threads[j].phase) ==>
               && s.threads[j].ExecBusy? && HasOutput(s.threads[j].phase)
               && s.threads[j].args == t.threads[j].args && s.threads[j].out == t.threads[j].out
    ensures ValuesAgree(c, t, k)
  {
  }

  lemma ValuesAtBegin(c: Config, s: State, h: History, x: Inputs, plan: set<nat>)
    requires Inv(c, s, h) && CanBegin(c, s, x, plan)
    ensures ValuesAgree(c, DoBegin(c, s, x, plan), h)
  {
    var t := DoBegin(c, s, x, plan);
    assert Contributed(c, t, h) == {};
    forall e | 0 <= e < |c.nodes| ensures h.place[e] == Nowhere {
      assert e !in Active(h);
    }
    forall j | 0 <= j < |t.threads| ensures t.threads[j].ExecFree? {
      assert ThreadOk(c, s, h, j);
    }
    forall a, b | 0 <= a < |x.hidden| && 0 <= b < c.dim
      ensures t.acc[a][b] == Total(Contributed(c, t, h), |c.nodes|, Summand(c, t.inputs, a, b))
    {
      TotalEmpty(|c.nodes|, Summand(c, x, a, b));
    }
  }

  /** While a token is busy there is a round. */
  lemma BusyMeansRound(c: Config, s: State, h: History, e: nat)
    requires Control(c, s, h) && e < |c.nodes| && h.place[e] != Nowhere
    ensures s.client.InRound? && e in s.client.plan && e !in s.client.todo && Routed(c, s.inputs, e)
  {
    assert e in Active(h);
  }

  lemma ValuesAtAccumulate(c: Config, s: State, h: History, j: nat)
    requires Inv(c, s, h) && CanAccumulate(c, s, j)
    ensures ValuesAgree(c, DoAccumulate(c, s, j), h)
  {
    var t := DoAccumulate(c, s, j);
    assert ThreadOk(c, s, h, j);
    var e := s.threads[j].args.expert;
    BusyMeansRound(c, s, h, e);
    assert e !in Contributed(c, s, h);
    ContributedGrows(c, s, h, j);
    forall a, b | 0 <= a < |s.inputs.hidden| && 0 <= b < c.dim
      ensures t.acc[a][b] == Total(Contributed(c, t, h), |c.nodes|, Summand(c, t.inputs, a, b))
    {
      OutputFits(c, s.inputs, e);
      AccumulateAdds(c, s.inputs, s.acc, e, a, b);
      TotalAdd(Contributed(c, s, h), |c.nodes|, Summand(c, s.inputs, a, b), e);
    }
  }

  lemma ContributedGrows(c: Config, s: State, h: History, j: nat)
    requires Control(c, s, h) && CanAccumulate(c, s, j) && s.client.InRound?
    ensures Contributed(c, DoAccumulate(c, s, j), h) == Contributed(c, s, h) + {s.threads[j].args.expert}
  {
    var t := DoAccumulate(c, s, j);
    var e := s.threads[j].args.expert;
    assert ThreadOk(c, s, h, j);
    BusyMeansRound(c, s, h, e);
    forall i | i in s.client.plan && i < |c.nodes| && i != e
      ensures i in Contributed(c, t, h) <==> i in Contributed(c, s, h)
    {
      assert ExpertOk(c, s, h, i);
    }
  }

  lemma ValuesAtForward(c: Config, s: State, h: History, j: nat)
    requires Inv(c, s, h) && CanForward(c, s, j)
    ensures ValuesAgree(c, DoForward(c, s, j), h)
  {
    var t := DoForward(c, s, j);
    assert ThreadOk(c, s, h, j);
    BusyMeansRound(c, s, h, s.threads[j].args.expert);
    assert Contributed(c, t, h) == Contributed(c, s, h);
  }

  /** Moving an unfinished token between queues contributes nothing. */
  lemma ValuesAtMove(c: Config, s: State, h: History, t: State, e: nat, p: Place)
    requires Inv(c, s, h) && Shaped(c, t, h) && e < |c.nodes| && h.place[e] != Nowhere && !h.place[e].OnThread?
    requires p.AtFetch? || p.InExec? || (p.OnThread? && ThreadAt(t, p.j, Popped))
    requires t.inputs == s.inputs && t.acc == s.acc && t.client == s.client
    requires forall j :: 0 <= j < |t.threads| && p != OnThread(j) ==> t.threads[j] == s.threads[j]
    requires p.OnThread? && p.j < |s.threads| ==> s.threads[p.j].ExecFree?
    ensures ValuesAgree(c, t, Move(h, e, p))
  {
    BusyMeansRound(c, s, h, e);
    var k := Move(h, e, p);
    forall i | i in s.client.plan && i < |c.nodes| && i != e
      ensures i in Contributed(c, t, k) <==> i in Contributed(c, s, h)
    {
      assert ExpertOk(c, s, h, i);
    }
    assert Contributed(c, t, k) == Contributed(c, s, h);
    ValuesFrame(c, s, h, t, k);
  }

  lemma ValuesAtEnqueue(c: Config, s: State, h: History, e: nat, g: nat)
    requires Inv(c, s, h) && CanEnqueue(c, s, e, g) && s.experts[e].exec == Idle
    ensures ValuesAgree(c, DoEnqueue(c, s, e, g), Move(h, e, EnqueuePlace(s, e, g)))
  {
    var t, k := DoEnqueue(c, s, e, g), Move(h, e, EnqueuePlace(s, e, g));
    assert Contributed(c, t, k) == Contributed(c, s, h);
    ValuesFrame(c, s, h, t, k);
  }

  lemma ValuesAtFinish(c: Config, s: State, h: History, j: nat)
    requires Inv(c, s, h) && CanFinish(c, s, j)
    ensures ValuesAgree(c, DoFinish(s, j), Move(h, s.threads[j].args.expert, Nowhere))
  {
    var e := s.threads[j].args.expert;
    var t, k := DoFinish(s, j), Move(h, e, Nowhere);
    assert ThreadOk(c, s, h, j);
    BusyMeansRound(c, s, h, e);
    forall i | i in s.client.plan && i < |c.nodes| && i != e
      ensures i in Contributed(c, t, k) <==> i in Contributed(c, s, h)
    {
      assert ExpertOk(c, s, h, i);
    }
    assert Contributed(c, t, k) == Contributed(c, s, h);
    ValuesFrame(c, s, h, t, k);
  }

  /** A phase of a thread that neither computes nor accumulates. */
  lemma ValuesAtPhase(c: Config, s: State, h: History, t: State, j: nat, phase: Phase)
    requires Inv(c, s, h) && j < |s.threads| && s.threads[j].ExecBusy? && HasOutput(s.threads[j].phase)
    requires phase.Idled? || phase.Offloaded? || phase.Released?
    requires Shaped(c, t, h) && t.inputs == s.inputs && t.acc == s.acc && t.client == s.client
    requires t.threads == SetPhase(s, j, phase).threads
    ensures ValuesAgree(c, t, h)
  {
    assert ThreadOk(c, s, h, j);
    BusyMeansRound(c, s, h, s.threads[j].args.expert);
    assert Contributed(c, t, h) == Contributed(c, s, h);
    ValuesFrame(c, s, h, t, h);
  }
}
