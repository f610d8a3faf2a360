/** Child-visit counters of the sparse stages and their flat form. */
module VisitCounts {
  import opened Basics

  /** A node's links to the next sparse stage, with one counter for each. */
  datatype Body = Body(children: nat, counts: seq<nat>)

  datatype Stage = Stage(sparse: bool, nodes: seq<Body>)

  // ---------------------------------------------------------------- links

  /** The number of sparse stages among the first n. */
  function Rank(stages: seq<Stage>, n: nat): nat
    requires n <= |stages|
  {
    if n == 0 then 0 else Rank(stages, n - 1) + if stages[n - 1].sparse then 1 else 0
  }

  predicate Linked(b: Body, children: nat) { b.children == children == |b.counts| }

  /** A stage with `size` nodes, all linked to `children` nodes. */
  predicate StageOk(s: Stage, size: nat, children: nat) {
    && s.sparse == (size > 1) && |s.nodes| == size
    && forall p :: 0 <= p < size ==> Linked(s.nodes[p], children)
  }

  /** The first sparse stage after i among the first n, or n. */
  function NextSparse(sizes: seq<nat>, i: nat, n: nat): (j: nat)
    requires i < n <= |sizes|
    ensures i < j <= n && (j < n ==> sizes[j] > 1) && forall k :: i < k < j ==> sizes[k] <= 1
    decreases n - i
  {
    if i + 1 == n then n else if sizes[i + 1] > 1 then i + 1 else NextSparse(sizes, i + 1, n)
  }

  function ChildCount(sizes: seq<nat>, i: nat, n: nat): nat
    requires i < n <= |sizes|
  {
    if sizes[i] > 1 && NextSparse(sizes, i, n) < n then sizes[NextSparse(sizes, i, n)] else 0
  }

  /** The pipeline InitializeTopology builds for stages of these sizes: every node of a sparse
      stage is linked to all nodes of the next sparse stage. */
  ghost predicate Built(stages: seq<Stage>, sizes: seq<nat>) {
    BuiltUpTo(stages, sizes, |sizes|)
  }

  /** The same for the first k stages. */
  ghost predicate BuiltUpTo(stages: seq<Stage>, sizes: seq<nat>, k: nat)
    requires k <= |sizes|
  {
    |stages| == k && forall i: nat :: i < k ==> StageOk(stages[i], sizes[i], ChildCount(sizes, i, k))
  }

  /** Links every node of a stage. */
  function LinkAll(s: Stage, children: nat): Stage {
    s.(nodes := seq(|s.nodes|, _ => Body(children, seq(children, _ => 0))))
  }

  lemma LinkAllOk(s: Stage, size: nat, was: nat, children: nat)
    requires StageOk(s, size, was)
    ensures StageOk(LinkAll(s, children), size, children)
  {
  }

  /** A stage as first read, without links. */
  function NewStage(size: nat): Stage { Stage(size > 1, seq(size, _ => Body(0, []))) }

  lemma NewStageOk(size: nat)
    ensures StageOk(NewStage(size), size, 0)
  {
  }

  /** One more stage read, and the previous sparse one linked to it. */
  function Extended(stages: seq<Stage>, size: nat, last: int): seq<Stage>
    requires -1 <= last < |stages|
  {
    var more := stages + [NewStage(size)];
    if size > 1 && last >= 0 then more[last := LinkAll(more[last], size)] else more
  }

  lemma ExtendedOk(stages: seq<Stage>, sizes: seq<nat>, k: nat, last: int, i: nat)
    requires |stages| == k < |sizes| && -1 <= last < k && (last >= 0 ==> sizes[last] > 1)
    requires (forall j :: last < j < k ==> sizes[j] <= 1) && i <= k
    requires i < k ==> StageOk(stages[i], sizes[i], ChildCount(sizes, i, k))
    ensures StageOk(Extended(stages, sizes[k], last)[i], sizes[i], ChildCount(sizes, i, k + 1))
  {
    if i < k {
      LinkNext(sizes, i, k, last);
      LinkAllOk(stages[i], sizes[i], ChildCount(sizes, i, k), sizes[k]);
    } else {
      NewStageOk(sizes[k]);
    }
  }

  /** `last` is the last sparse stage among the first k, or -1. */
  predicate LastSparse(sizes: seq<nat>, k: nat, last: int)
    requires k <= |sizes|
  {
    && -1 <= last < k && (last >= 0 ==> sizes[last] > 1)
    && forall i :: last < i < k ==> sizes[i] <= 1
  }

  lemma ExtendedBuilt(stages: seq<Stage>, sizes: seq<nat>, k: nat, last: int)
    requires k < |sizes| && BuiltUpTo(stages, sizes, k) && LastSparse(sizes, k, last)
    ensures BuiltUpTo(Extended(stages, sizes[k], last), sizes, k + 1)
  {
    var next := Extended(stages, sizes[k], last);
    forall i: nat | i < k + 1 ensures StageOk(next[i], sizes[i], ChildCount(sizes, i, k + 1)) {
      ExtendedOk(stages, sizes, k, last, i);
    }
  }

  predicate ZeroCounts(b: Body) { forall e :: 0 <= e < |b.counts| ==> b.counts[e] == 0 }

  predicate ZeroStage(s: Stage) { forall p :: 0 <= p < |s.nodes| ==> ZeroCounts(s.nodes[p]) }

  /** No node has been visited yet. */
  predicate AllZero(stages: seq<Stage>) { forall i :: 0 <= i < |stages| ==> ZeroStage(stages[i]) }

  lemma ExtendedZero(stages: seq<Stage>, size: nat, last: int)
    requires -1 <= last < |stages| && AllZero(stages)
    ensures AllZero(Extended(stages, size, last))
  {
    var more := stages + [NewStage(size)];
    assert ZeroStage(NewStage(size));
    assert last >= 0 ==> ZeroStage(LinkAll(more[last], size));
  }

  method ReadStage(stages: seq<Stage>, size: nat, last: int) returns (more: seq<Stage>)
    requires -1 <= last < |stages|
    ensures more == Extended(stages, size, last)
  {
    more := stages + [NewStage(size)];
    if size > 1 && last >= 0 {
      more := more[last := LinkAll(more[last], size)];
    }
  }

  method Initialize(sizes: seq<nat>) returns (stages: seq<Stage>)
    ensures Built(stages, sizes) && AllZero(stages)
  {
    stages := [];
    var last := -1;
    for k := 0 to |sizes|
      invariant BuiltUpTo(stages, sizes, k) && LastSparse(sizes, k, last) && AllZero(stages)
    {
      ExtendedBuilt(stages, sizes, k, last);
      ExtendedZero(stages, sizes[k], last);
      stages := ReadStage(stages, sizes[k], last);
      if sizes[k] > 1 {
        last := k;
      }
    }
  }

  lemma LinkNext(sizes: seq<nat>, i: nat, k: nat, last: int)
    requires i < k < |sizes| && -1 <= last < k && (last >= 0 ==> sizes[last] > 1)
    requires forall j :: last < j < k ==> sizes[j] <= 1
    ensures ChildCount(sizes, i, k + 1) == if i == last && sizes[k] > 1 then sizes[k] else ChildCount(sizes, i, k)
  {
    var a, b := NextSparse(sizes, i, k), NextSparse(sizes, i, k + 1);
    if i < last { assert a <= last && b <= last; }
  }

  // ---------------------------------------------------------------- flat positions

  function Layers(stages: seq<Stage>): nat { Rank(stages, |stages|) }

  /** The size of the last sparse stage among the first n. */
  function Experts(stages: seq<Stage>, n: nat): nat
    requires n <= |stages|
  {
    if n == 0 then 0 else if stages[n - 1].sparse then |stages[n - 1].nodes| else Experts(stages, n - 1)
  }

  function FlatSize(layers: nat, experts: nat): nat {
    if layers == 0 then 0 else (layers - 1) * experts * experts
  }

  /** The counters of one node form a row of the flat form. */
  function Row(stages: seq<Stage>, experts: nat, i: nat, p: nat): nat
    requires i < |stages|
  {
    Rank(stages, i) * experts + p
  }

  function Position(layer: nat, parent: nat, expert: nat, experts: nat): nat {
    layer * experts * experts + parent * experts + expert
  }

  lemma PositionIsRow(layer: nat, parent: nat, expert: nat, experts: nat)
    ensures Position(layer, parent, expert, experts) == (layer * experts + parent) * experts + expert
  {
  }

  lemma SameQuotient(q: nat, r: nat, k: nat, s: nat, b: nat)
    requires r < b && s < b && q * b + r == k * b + s
    ensures q == k && r == s
  {
    if q < k {
      MulLess(q, k, b);
    } else if k < q {
      MulLess(k, q, b);
    }
  }

  /** Different counters have different positions. */
  lemma PositionInjective(l1: nat, p1: nat, e1: nat, l2: nat, p2: nat, e2: nat, experts: nat)
    requires p1 < experts && e1 < experts && p2 < experts && e2 < experts
    requires Position(l1, p1, e1, experts) == Position(l2, p2, e2, experts)
    ensures l1 == l2 && p1 == p2 && e1 == e2
  {
    PositionIsRow(l1, p1, e1, experts);
    PositionIsRow(l2, p2, e2, experts);
    SameQuotient(l1 * experts + p1, e1, l2 * experts + p2, e2, experts);
    SameQuotient(l1, p1, l2, p2, experts);
  }

  lemma RowBounds(layer: nat, parent: nat, experts: nat, layers: nat)
    requires layer < layers && parent < experts
    ensures (layer * experts + parent) * experts + experts <= layers * experts * experts
  {
    MulLess(layer, layers, experts);
    MulLess(layer * experts + parent, layers * experts, experts);
  }

  // ---------------------------------------------------------------- pipelines that fit the flat form

  predicate HasNode(stages: seq<Stage>, i: nat, p: nat) {
    i < |stages| && stages[i].sparse && p < |stages[i].nodes|
  }

  /** The node and its counters stay below the expert count, and only the last sparse stage has none. */
  predicate NodeFits(stages: seq<Stage>, experts: nat, i: nat, p: nat)
    requires HasNode(stages, i, p)
  {
    var counts := stages[i].nodes[p].counts;
    && p < experts && |counts| <= experts && Linked(stages[i].nodes[p], |counts|)
    && (|counts| > 0 ==> Rank(stages, i) + 1 < Layers(stages))
  }

  ghost predicate Fitted(stages: seq<Stage>, experts: nat) {
    forall i: nat, p: nat :: HasNode(stages, i, p) ==> NodeFits(stages, experts, i, p)
  }

  lemma {:induction false} RankGrows(stages: seq<Stage>, i: nat, j: nat)
    requires i <= j <= |stages|
    ensures Rank(stages, i) <= Rank(stages, j)
    ensures (forall k :: i <= k < j ==> !stages[k].sparse) ==> Rank(stages, i) == Rank(stages, j)
    decreases j
  {
    if i < j { RankGrows(stages, i, j - 1); }
  }

  lemma RankLess(stages: seq<Stage>, i: nat, j: nat)
    requires i < j <= |stages| && stages[i].sparse
    ensures Rank(stages, i) < Rank(stages, j)
  {
    RankGrows(stages, i + 1, j);
  }

  /** Two sparse stages of one rank are the same stage. */
  lemma RankUnique(stages: seq<Stage>, i: nat, j: nat)
    requires i < |stages| && j < |stages| && stages[i].sparse && stages[j].sparse && Rank(stages, i) == Rank(stages, j)
    ensures i == j
  {
    if i < j {
      RankLess(stages, i, j);
    } else if j < i {
      RankLess(stages, j, i);
    }
  }

  /** A sparse stage has a successor exactly when it is not the last. */
  lemma SuccessorIff(stages: seq<Stage>, sizes: seq<nat>, i: nat)
    requires i < |stages| == |sizes| && stages[i].sparse
    requires forall k :: 0 <= k < |sizes| ==> stages[k].sparse == (sizes[k] > 1)
    ensures NextSparse(sizes, i, |sizes|) < |sizes| <==> Rank(stages, i) + 1 < Layers(stages)
  {
    var j := NextSparse(sizes, i, |sizes|);
    RankGrows(stages, i + 1, j);
    if j < |sizes| { RankLess(stages, j, |stages|); }
  }

  lemma BuiltSparse(stages: seq<Stage>, sizes: seq<nat>)
    requires Built(stages, sizes)
    ensures forall k :: 0 <= k < |sizes| ==> stages[k].sparse == (sizes[k] > 1)
  {
    forall k: nat | k < |sizes| ensures stages[k].sparse == (sizes[k] > 1) {
      assert StageOk(stages[k], sizes[k], ChildCount(sizes, k, |sizes|));
    }
  }

  /** The rank of the next sparse stage. */
  lemma NextRank(stages: seq<Stage>, sizes: seq<nat>, i: nat)
    requires i < |stages| == |sizes| && stages[i].sparse && NextSparse(sizes, i, |sizes|) < |sizes|
    requires forall k :: 0 <= k < |sizes| ==> stages[k].sparse == (sizes[k] > 1)
    ensures stages[NextSparse(sizes, i, |sizes|)].sparse && Rank(stages, NextSparse(sizes, i, |sizes|)) == Rank(stages, i) + 1
  {
    RankGrows(stages, i + 1, NextSparse(sizes, i, |sizes|));
  }

  /** What InitializeTopology builds, stage by stage. */
  lemma BuiltStage(stages: seq<Stage>, sizes: seq<nat>, i: nat)
    requires Built(stages, sizes) && i < |sizes| && stages[i].sparse
    ensures |stages[i].nodes| == sizes[i] > 1
    ensures Rank(stages, i) + 1 < Layers(stages) ==>
              var j := NextSparse(sizes, i, |sizes|);
              && j < |sizes| && stages[j].sparse && Rank(stages, j) == Rank(stages, i) + 1
              && forall p :: 0 <= p < sizes[i] ==> Linked(stages[i].nodes[p], sizes[j])
    ensures Rank(stages, i) + 1 >= Layers(stages) ==> forall p :: 0 <= p < sizes[i] ==> Linked(stages[i].nodes[p], 0)
  {
    BuiltSparse(stages, sizes);
    assert StageOk(stages[i], sizes[i], ChildCount(sizes, i, |sizes|));
    SuccessorIff(stages, sizes, i);
    if NextSparse(sizes, i, |sizes|) < |sizes| { NextRank(stages, sizes, i); }
  }

  /** No sparse stage has more nodes than the last one. */
  predicate NoneLarger(stages: seq<Stage>, experts: nat) {
    forall i :: 0 <= i < |stages| && stages[i].sparse ==> |stages[i].nodes| <= experts
  }

  /** Such a pipeline meets what the getter and the setter need. */
  lemma BuiltIsFitted(stages: seq<Stage>, sizes: seq<nat>, experts: nat)
    requires Built(stages, sizes) && NoneLarger(stages, experts)
    ensures Fitted(stages, experts)
  {
    forall i: nat, p: nat | HasNode(stages, i, p) ensures NodeFits(stages, experts, i, p) {
      BuiltStage(stages, sizes, i);
      if Rank(stages, i) + 1 < Layers(stages) {
        BuiltStage(stages, sizes, NextSparse(sizes, i, |sizes|));
        assert Linked(stages[i].nodes[p], sizes[NextSparse(sizes, i, |sizes|)]);
      } else {
        assert Linked(stages[i].nodes[p], 0);
      }
    }
  }

  // ---------------------------------------------------------------- exactly when the flat form is sound

  /** Counter e of node p of stage i. */
  predicate HasCounter(stages: seq<Stage>, i: nat, p: nat, e: nat) {
    HasNode(stages, i, p) && e < |stages[i].nodes[p].counts|
  }

  function PositionOf(stages: seq<Stage>, experts: nat, i: nat, p: nat, e: nat): nat
    requires i < |stages|
  {
    Position(Rank(stages, i), p, e, experts)
  }

  /** All indices are in bounds, and different counters have different ones. */
  ghost predicate Sound(stages: seq<Stage>, experts: nat) {
    && (forall i: nat, p: nat, e: nat :: HasCounter(stages, i, p, e) ==>
          PositionOf(stages, experts, i, p, e) < FlatSize(Layers(stages), experts))
    && (forall i: nat, p: nat, e: nat, j: nat, q: nat, d: nat :: HasCounter(stages, i, p, e) && HasCounter(stages, j, q, d) ==>
          PositionOf(stages, experts, i, p, e) == PositionOf(stages, experts, j, q, d) ==> i == j && p == q && e == d)
  }

  lemma FittedIsSound(stages: seq<Stage>, experts: nat)
    requires Fitted(stages, experts)
    ensures Sound(stages, experts)
  {
    forall i: nat, p: nat, e: nat | HasCounter(stages, i, p, e)
      ensures PositionOf(stages, experts, i, p, e) < FlatSize(Layers(stages), experts)
    {
      assert NodeFits(stages, experts, i, p);
      PositionIsRow(Rank(stages, i), p, e, experts);
      RowBounds(Rank(stages, i), p, experts, Layers(stages) - 1);
    }
    forall i: nat, p: nat, e: nat, j: nat, q: nat, d: nat | HasCounter(stages, i, p, e) && HasCounter(stages, j, q, d)
      && PositionOf(stages, experts, i, p, e) == PositionOf(stages, experts, j, q, d)
      ensures i == j && p == q && e == d
    {
      assert NodeFits(stages, experts, i, p) && NodeFits(stages, experts, j, q);
      PositionInjective(Rank(stages, i), p, e, Rank(stages, j), q, d, experts);
      RankUnique(stages, i, j);
    }
  }

  /** Parent number `experts` of a larger stage gets the first index of the next layer. */
  lemma NextLayerIndex(layer: nat, experts: nat)
    ensures Position(layer, experts, 0, experts) == Position(layer + 1, 0, 0, experts) == (layer + 1) * experts * experts
  {
  }

  lemma {:induction false} LastIsExperts(stages: seq<Stage>, n: nat, i: nat)
    requires i < n <= |stages| && stages[i].sparse && Rank(stages, i) + 1 == Rank(stages, n)
    ensures Experts(stages, n) == |stages[i].nodes|
  {
    if i < n - 1 {
      if stages[n - 1].sparse { RankLess(stages, i, n - 1); }
      LastIsExperts(stages, n - 1, i);
    }
  }

  /** The first index of a parent number `experts` is one past the last layer, or taken. */
  lemma PastTheEnd(stages: seq<Stage>, experts: nat, i: nat)
    requires HasCounter(stages, i, experts, 0) && Rank(stages, i) + 2 == Layers(stages)
    ensures !Sound(stages, experts)
  {
    NextLayerIndex(Rank(stages, i), experts);
    assert PositionOf(stages, experts, i, experts, 0) == FlatSize(Layers(stages), experts);
  }

  lemma Collides(stages: seq<Stage>, experts: nat, i: nat, j: nat)
    requires HasCounter(stages, i, experts, 0) && HasCounter(stages, j, 0, 0) && Rank(stages, j) == Rank(stages, i) + 1
    ensures !Sound(stages, experts)
  {
    NextLayerIndex(Rank(stages, i), experts);
    assert PositionOf(stages, experts, i, experts, 0) == PositionOf(stages, experts, j, 0, 0);
    assert i != j;
  }

  /** A larger stage sends a counter out of bounds or onto a counter of the next stage. */
  lemma LargerIsUnsound(stages: seq<Stage>, sizes: seq<nat>, i: nat)
    requires Built(stages, sizes) && i < |stages| && stages[i].sparse && |stages[i].nodes| > Experts(stages, |stages|)
    ensures !Sound(stages, Experts(stages, |stages|))
  {
    var experts, layer := Experts(stages, |stages|), Rank(stages, i);
    RankLess(stages, i, |stages|);
    assert layer + 1 < Layers(stages) by {
      if layer + 1 == Layers(stages) { LastIsExperts(stages, |stages|, i); }
    }
    BuiltStage(stages, sizes, i);
    var j := NextSparse(sizes, i, |sizes|);
    BuiltStage(stages, sizes, j);
    assert Linked(stages[i].nodes[experts], sizes[j]);
    if layer + 2 < Layers(stages) {
      BuiltStage(stages, sizes, NextSparse(sizes, j, |sizes|));
      assert Linked(stages[j].nodes[0], sizes[NextSparse(sizes, j, |sizes|)]);
      Collides(stages, experts, i, j);
    } else {
      PastTheEnd(stages, experts, i);
    }
  }

  /** The flat indices of a pipeline that InitializeTopology builds are in bounds and pairwise
      different exactly when no sparse stage has more nodes than the last one. */
  lemma SoundIffNoneLarger(stages: seq<Stage>, sizes: seq<nat>)
    requires Built(stages, sizes)
    ensures Sound(stages, Experts(stages, |stages|)) <==> NoneLarger(stages, Experts(stages, |stages|))
  {
    var experts := Experts(stages, |stages|);
    if NoneLarger(stages, experts) {
      BuiltIsFitted(stages, sizes, experts);
      FittedIsSound(stages, experts);
    } else {
      var i :| 0 <= i < |stages| && stages[i].sparse && |stages[i].nodes| > experts;
      LargerIsUnsound(stages, sizes, i);
    }
  }

  /** Sparse stages of three and then two nodes are not sound, two and then three are. */
  lemma UnequalStages(stages: seq<Stage>, sizes: seq<nat>)
    requires Built(stages, sizes)
    ensures sizes == [3, 2] ==> !Sound(stages, Experts(stages, |stages|))
    ensures sizes == [2, 3] ==> Sound(stages, Experts(stages, |stages|))
  {
    if |sizes| == 2 && sizes[0] > 1 && sizes[1] > 1 {
      assert StageOk(stages[0], sizes[0], ChildCount(sizes, 0, 2)) && StageOk(stages[1], sizes[1], ChildCount(sizes, 1, 2));
      SoundIffNoneLarger(stages, sizes);
    }
  }

  // ---------------------------------------------------------------- agreement with the flat form

  predicate EntryIs(v: seq<nat>, base: nat, counts: seq<nat>, e: nat)
    requires e < |counts|
  {
    base + e < |v| && v[base + e] == counts[e]
  }

  ghost predicate RowUpTo(v: seq<nat>, base: nat, counts: seq<nat>, n: nat)
    requires n <= |counts|
  {
    forall e: nat :: e < n ==> EntryIs(v, base, counts, e)
  }

  ghost predicate RowIs(v: seq<nat>, base: nat, counts: seq<nat>) {
    RowUpTo(v, base, counts, |counts|)
  }

  /** Node p of stage i has its counters at its row of v. */
  ghost predicate NodeAgrees(stages: seq<Stage>, experts: nat, v: seq<nat>, i: nat, p: nat)
    requires i < |stages| && p < |stages[i].nodes|
  {
    RowIs(v, Row(stages, experts, i, p) * experts, stages[i].nodes[p].counts)
  }

  ghost predicate RowsBelow(stages: seq<Stage>, experts: nat, v: seq<nat>, r: nat) {
    forall i: nat, p: nat :: HasNode(stages, i, p) && Row(stages, experts, i, p) < r ==> NodeAgrees(stages, experts, v, i, p)
  }

  /** v is the flat form of the counters. */
  ghost predicate Agrees(stages: seq<Stage>, experts: nat, v: seq<nat>) {
    forall i: nat, p: nat :: HasNode(stages, i, p) ==> NodeAgrees(stages, experts, v, i, p)
  }

  /** Only the counters differ. */
  predicate SameShape(s: seq<Stage>, t: seq<Stage>) {
    && |s| == |t|
    && forall i: nat :: i < |s| ==> SameStage(s[i], t[i])
  }

  predicate SameStage(a: Stage, b: Stage) {
    && a.sparse == b.sparse && |a.nodes| == |b.nodes| && (!a.sparse ==> a == b)
    && forall p :: 0 <= p < |a.nodes| ==> a.nodes[p].children == b.nodes[p].children && |a.nodes[p].counts| == |b.nodes[p].counts|
  }

  lemma {:induction false} SameRank(s: seq<Stage>, t: seq<Stage>, n: nat)
    requires SameShape(s, t) && n <= |s|
    ensures Rank(s, n) == Rank(t, n)
  {
    if n > 0 { SameRank(s, t, n - 1); assert SameStage(s[n - 1], t[n - 1]); }
  }

  lemma SameRow(v: seq<nat>, base: nat, a: seq<nat>, b: seq<nat>)
    requires |a| == |b| && RowIs(v, base, a) && RowIs(v, base, b)
    ensures a == b
  {
    forall e: nat | e < |a| ensures a[e] == b[e] {
      assert EntryIs(v, base, a, e) && EntryIs(v, base, b, e);
    }
  }

  /** Setting back the counters that were read changes nothing. */
  lemma SetAfterGet(s: seq<Stage>, t: seq<Stage>, experts: nat, v: seq<nat>)
    requires SameShape(s, t) && Agrees(s, experts, v) && Agrees(t, experts, v)
    ensures s == t
  {
    forall i: nat | i < |s| ensures s[i] == t[i] {
      assert SameStage(s[i], t[i]);
      SameRank(s, t, i);
      if s[i].sparse {
        forall p: nat | p < |s[i].nodes| ensures s[i].nodes[p] == t[i].nodes[p] {
          assert HasNode(s, i, p) && HasNode(t, i, p);
          assert NodeAgrees(s, experts, v, i, p) && NodeAgrees(t, experts, v, i, p);
          SameRow(v, Row(s, experts, i, p) * experts, s[i].nodes[p].counts, t[i].nodes[p].counts);
        }
        assert s[i].nodes == t[i].nodes;
      }
    }
  }

  /** The sparse stage of a given rank. */
  lemma {:induction false} StageOfRank(stages: seq<Stage>, n: nat, l: nat) returns (i: nat)
    requires n <= |stages| && l < Rank(stages, n)
    ensures i < n && stages[i].sparse && Rank(stages, i) == l
  {
    if l == Rank(stages, n - 1) {
      i := n - 1;
    } else {
      i := StageOfRank(stages, n - 1, l);
    }
  }

  lemma QuotientBelow(k: nat, a: nat, b: nat)
    requires b > 0 && k < a * b
    ensures k / b < a && k == k / b * b + k % b
  {
    if k / b > a {
      MulLess(a, k / b, b);
    }
  }

  /** All sparse stages have the same number of nodes, and all but the last are fully linked. */
  ghost predicate Even(stages: seq<Stage>, experts: nat) {
    forall i: nat :: i < |stages| && stages[i].sparse ==>
      StageOk(stages[i], experts, if Rank(stages, i) + 1 < Layers(stages) then experts else 0)
  }

  /** Every place of the flat form belongs to a counter. */
  lemma EveryPlaceUsed(stages: seq<Stage>, experts: nat, k: nat) returns (i: nat, p: nat, e: nat)
    requires Even(stages, experts) && k < FlatSize(Layers(stages), experts)
    ensures HasCounter(stages, i, p, e) && Row(stages, experts, i, p) * experts + e == k
  {
    var last := Layers(stages) - 1;
    assert experts > 0;
    QuotientBelow(k, last * experts, experts);
    var row := k / experts;
    QuotientBelow(row, last, experts);
    i := StageOfRank(stages, |stages|, row / experts);
    p, e := row % experts, k % experts;
    assert StageOk(stages[i], experts, experts);
    assert Linked(stages[i].nodes[p], experts);
  }

  /** A place of a smaller stage that belongs to no counter. */
  lemma UnusedPlace(stages: seq<Stage>, experts: nat, l: nat)
    requires Fitted(stages, experts) && l < |stages| && stages[l].sparse && |stages[l].nodes| < experts
    requires Rank(stages, l) + 1 < Layers(stages)
    ensures var k := Position(Rank(stages, l), experts - 1, 0, experts);
            && k < FlatSize(Layers(stages), experts)
            && forall i: nat, p: nat, e: nat :: HasCounter(stages, i, p, e) ==> PositionOf(stages, experts, i, p, e) != k
  {
    PositionIsRow(Rank(stages, l), experts - 1, 0, experts);
    RowBounds(Rank(stages, l), experts - 1, experts, Layers(stages) - 1);
    forall i: nat, p: nat, e: nat | HasCounter(stages, i, p, e)
      ensures PositionOf(stages, experts, i, p, e) != Position(Rank(stages, l), experts - 1, 0, experts)
    {
      assert NodeFits(stages, experts, i, p);
      if PositionOf(stages, experts, i, p, e) == Position(Rank(stages, l), experts - 1, 0, experts) {
        PositionInjective(Rank(stages, i), p, e, Rank(stages, l), experts - 1, 0, experts);
        RankUnique(stages, i, l);
      }
    }
  }

  ghost predicate TakenPlace(stages: seq<Stage>, experts: nat, k: nat) {
    exists i: nat, p: nat, e: nat :: HasCounter(stages, i, p, e) && PositionOf(stages, experts, i, p, e) == k
  }

  lemma BuiltIsEven(stages: seq<Stage>, sizes: seq<nat>, experts: nat)
    requires Built(stages, sizes) && AllEqual(stages, experts)
    ensures Even(stages, experts)
  {
    forall i: nat | i < |stages| && stages[i].sparse
      ensures StageOk(stages[i], experts, if Rank(stages, i) + 1 < Layers(stages) then experts else 0)
    {
      BuiltStage(stages, sizes, i);
      if Rank(stages, i) + 1 < Layers(stages) { BuiltStage(stages, sizes, NextSparse(sizes, i, |sizes|)); }
    }
  }

  /** A stage smaller than the last leaves a place unused. */
  lemma SmallerLeavesGap(stages: seq<Stage>, sizes: seq<nat>, experts: nat, i: nat) returns (k: nat)
    requires Built(stages, sizes) && experts == Experts(stages, |stages|) && NoneLarger(stages, experts)
    requires i < |stages| && stages[i].sparse && |stages[i].nodes| < experts
    ensures k < FlatSize(Layers(stages), experts) && !TakenPlace(stages, experts, k)
  {
    RankLess(stages, i, |stages|);
    assert Rank(stages, i) + 1 < Layers(stages) by {
      if Rank(stages, i) + 1 == Layers(stages) { LastIsExperts(stages, |stages|, i); }
    }
    BuiltIsFitted(stages, sizes, experts);
    UnusedPlace(stages, experts, i);
    k := Position(Rank(stages, i), experts - 1, 0, experts);
  }

  lemma EvenIsFull(stages: seq<Stage>, experts: nat, k: nat)
    requires Even(stages, experts) && k < FlatSize(Layers(stages), experts)
    ensures TakenPlace(stages, experts, k)
  {
    var i, p, e := EveryPlaceUsed(stages, experts, k);
    PositionIsRow(Rank(stages, i), p, e, experts);
    assert PositionOf(stages, experts, i, p, e) == k;
  }

  ghost predicate Full(stages: seq<Stage>, experts: nat) {
    forall k: nat :: k < FlatSize(Layers(stages), experts) ==> TakenPlace(stages, experts, k)
  }

  predicate AllEqual(stages: seq<Stage>, experts: nat) {
    forall i :: 0 <= i < |stages| && stages[i].sparse ==> |stages[i].nodes| == experts
  }

  /** Where the flat form is sound, every place of it is used exactly when all sparse stages have
      the same number of nodes. */
  lemma FullIffEqual(stages: seq<Stage>, sizes: seq<nat>, experts: nat)
    requires Built(stages, sizes) && experts == Experts(stages, |stages|) && NoneLarger(stages, experts)
    ensures Full(stages, experts) <==> AllEqual(stages, experts)
  {
    if AllEqual(stages, experts) {
      BuiltIsEven(stages, sizes, experts);
      forall k: nat | k < FlatSize(Layers(stages), experts) ensures TakenPlace(stages, experts, k) {
        EvenIsFull(stages, experts, k);
      }
    } else {
      var i: nat :| i < |stages| && stages[i].sparse && |stages[i].nodes| != experts;
      var k := SmallerLeavesGap(stages, sizes, experts, i);
    }
  }

  /** Where all sparse stages have the same size the flat form is determined by the counters, so
      reading back what was set gives it again. */
  lemma GetAfterSet(stages: seq<Stage>, experts: nat, v: seq<nat>, w: seq<nat>)
    requires Even(stages, experts) && |v| == |w| == FlatSize(Layers(stages), experts)
    requires Agrees(stages, experts, v) && Agrees(stages, experts, w)
    ensures v == w
  {
    forall k: nat | k < |v| ensures v[k] == w[k] {
      var i, p, e := EveryPlaceUsed(stages, experts, k);
      assert NodeAgrees(stages, experts, v, i, p) && NodeAgrees(stages, experts, w, i, p);
      RowAt(v, Row(stages, experts, i, p) * experts, stages[i].nodes[p].counts, e);
      RowAt(w, Row(stages, experts, i, p) * experts, stages[i].nodes[p].counts, e);
    }
  }

  // ---------------------------------------------------------------- the flat form as a walk

  /** The counters of the first n nodes, one node after the other. */
  function NodeRows(nodes: seq<Body>, n: nat): seq<nat>
    requires n <= |nodes|
  {
    if n == 0 then [] else NodeRows(nodes, n - 1) + nodes[n - 1].counts
  }

  /** The counters of the sparse stages among the first n, one stage after the other. */
  function Walk(stages: seq<Stage>, n: nat): seq<nat>
    requires n <= |stages|
  {
    if n == 0 then [] else
      var x := stages[n - 1];
      Walk(stages, n - 1) + if x.sparse then NodeRows(x.nodes, |x.nodes|) else []
  }

  lemma RowSlice(v: seq<nat>, base: nat, counts: seq<nat>)
    requires RowIs(v, base, counts) && |counts| > 0
    ensures base + |counts| <= |v| && v[base..base + |counts|] == counts
  {
    assert EntryIs(v, base, counts, |counts| - 1);
    forall e: nat | e < |counts| ensures v[base..base + |counts|][e] == counts[e] { assert EntryIs(v, base, counts, e); }
  }

  lemma GlueSlices(v: seq<nat>, a: nat, b: nat, c: nat)
    requires a <= b <= c <= |v|
    ensures v[a..c] == v[a..b] + v[b..c]
  {
  }

  lemma SliceGrows(v: seq<nat>, a: nat, b: nat, rows: seq<nat>, counts: seq<nat>)
    requires a <= b <= |v| && v[a..b] == rows && RowIs(v, b, counts) && |counts| > 0
    ensures b + |counts| <= |v| && v[a..b + |counts|] == rows + counts
  {
    RowSlice(v, b, counts);
    GlueSlices(v, a, b, b + |counts|);
  }

  lemma OneMoreRow(n: nat, experts: nat)
    ensures (n + 1) * experts == n * experts + experts
  {
  }

  lemma {:induction false} StageSlice(nodes: seq<Body>, v: seq<nat>, base: nat, experts: nat, n: nat)
    requires n <= |nodes| && experts > 0 && base <= |v|
    requires forall p: nat :: p < n ==> Linked(nodes[p], experts) && RowIs(v, base + p * experts, nodes[p].counts)
    ensures base + n * experts <= |v| && v[base..base + n * experts] == NodeRows(nodes, n)
  {
    if n > 0 {
      StageSlice(nodes, v, base, experts, n - 1);
      assert Linked(nodes[n - 1], experts) && RowIs(v, base + (n - 1) * experts, nodes[n - 1].counts);
      OneMoreRow(n - 1, experts);
      SliceGrows(v, base, base + (n - 1) * experts, NodeRows(nodes, n - 1), nodes[n - 1].counts);
    }
  }

  lemma {:induction false} NoRows(nodes: seq<Body>, n: nat)
    requires n <= |nodes| && forall p: nat :: p < n ==> Linked(nodes[p], 0)
    ensures NodeRows(nodes, n) == []
  {
    if n > 0 { NoRows(nodes, n - 1); assert Linked(nodes[n - 1], 0); }
  }

  /** Where the counters of a layer start. */
  function Base(layer: nat, experts: nat): nat { layer * experts * experts }

  lemma BaseNext(l: nat, experts: nat)
    ensures Base(l + 1, experts) == Base(l, experts) + experts * experts
  {
    assert (l + 1) * experts == l * experts + experts;
  }

  lemma {:induction false} BaseGrows(l: nat, k: nat, experts: nat)
    requires l <= k
    ensures Base(l, experts) <= Base(k, experts)
  {
    if l < k { BaseGrows(l, k - 1, experts); BaseNext(k - 1, experts); }
  }

  lemma RowBase(stages: seq<Stage>, experts: nat, i: nat, p: nat)
    requires i < |stages|
    ensures Row(stages, experts, i, p) * experts == Base(Rank(stages, i), experts) + p * experts
  {
    PositionIsRow(Rank(stages, i), p, 0, experts);
  }

  /** The counters of a stage with a successor are its part of the flat form. */
  lemma {:induction false} StageWalk(stages: seq<Stage>, experts: nat, v: seq<nat>, i: nat, base: nat)
    requires Even(stages, experts) && Agrees(stages, experts, v)
    requires i < |stages| && stages[i].sparse && Rank(stages, i) + 1 < Layers(stages) && base == Base(Rank(stages, i), experts) <= |v|
    ensures base + experts * experts <= |v| && v[base..base + experts * experts] == NodeRows(stages[i].nodes, |stages[i].nodes|)
  {
    var nodes := stages[i].nodes;
    assert StageOk(stages[i], experts, experts);
    forall p: nat | p < |nodes| ensures Linked(nodes[p], experts) && RowIs(v, base + p * experts, nodes[p].counts) {
      assert HasNode(stages, i, p) && NodeAgrees(stages, experts, v, i, p);
      RowBase(stages, experts, i, p);
    }
    StageSlice(nodes, v, base, experts, experts);
  }

  /** The end of the counters of the first n stages: the last sparse stage has none. */
  function WalkEnd(stages: seq<Stage>, experts: nat, n: nat): nat
    requires n <= |stages|
  {
    if Rank(stages, n) < Layers(stages) then Base(Rank(stages, n), experts) else FlatSize(Layers(stages), experts)
  }

  lemma {:induction false} WalkEndFits(stages: seq<Stage>, experts: nat, n: nat)
    requires n <= |stages|
    ensures WalkEnd(stages, experts, n) <= FlatSize(Layers(stages), experts)
  {
    if Rank(stages, n) < Layers(stages) { BaseGrows(Rank(stages, n), Layers(stages) - 1, experts); }
  }

  lemma {:induction false} WalkPrefix(stages: seq<Stage>, experts: nat, v: seq<nat>, n: nat)
    requires Even(stages, experts) && Agrees(stages, experts, v) && |v| == FlatSize(Layers(stages), experts)
    requires n <= |stages|
    ensures WalkEnd(stages, experts, n) <= |v| && v[..WalkEnd(stages, experts, n)] == Walk(stages, n)
  {
    WalkEndFits(stages, experts, n);
    if n == 0 {
      assert WalkEnd(stages, experts, 0) == 0;
    } else {
      WalkPrefix(stages, experts, v, n - 1);
      if stages[n - 1].sparse { WalkStep(stages, experts, v, n - 1); }
    }
  }

  lemma {:induction false} WalkStep(stages: seq<Stage>, experts: nat, v: seq<nat>, i: nat)
    requires Even(stages, experts) && Agrees(stages, experts, v) && |v| == FlatSize(Layers(stages), experts)
    requires i < |stages| && stages[i].sparse && WalkEnd(stages, experts, i) <= |v|
    ensures WalkEnd(stages, experts, i) <= WalkEnd(stages, experts, i + 1) <= |v|
    ensures v[..WalkEnd(stages, experts, i + 1)] == v[..WalkEnd(stages, experts, i)] + NodeRows(stages[i].nodes, |stages[i].nodes|)
  {
    var l := Rank(stages, i);
    RankLess(stages, i, |stages|);
    WalkEndFits(stages, experts, i + 1);
    if l + 1 < Layers(stages) {
      BaseNext(l, experts);
      StageWalk(stages, experts, v, i, Base(l, experts));
      GlueSlices(v, 0, Base(l, experts), Base(l + 1, experts));
    } else {
      LastWalk(stages, experts, i);
    }
  }

  lemma {:induction false} LastWalk(stages: seq<Stage>, experts: nat, i: nat)
    requires Even(stages, experts) && i < |stages| && stages[i].sparse && Rank(stages, i) + 1 >= Layers(stages)
    ensures NodeRows(stages[i].nodes, |stages[i].nodes|) == []
  {
    assert StageOk(stages[i], experts, 0);
    NoRows(stages[i].nodes, |stages[i].nodes|);
  }

  /** With equal stages the flat form is the counters one after the other, as the pipeline is walked. */
  lemma {:induction false} FlatIsWalk(stages: seq<Stage>, experts: nat, v: seq<nat>)
    requires Even(stages, experts) && Agrees(stages, experts, v) && |v| == FlatSize(Layers(stages), experts)
    ensures v == Walk(stages, |stages|)
  {
    WalkPrefix(stages, experts, v, |stages|);
    assert v[..|v|] == v;
  }

  lemma RowAt(v: seq<nat>, base: nat, counts: seq<nat>, e: nat)
    requires RowIs(v, base, counts) && e < |counts|
    ensures base + e < |v| && v[base + e] == counts[e]
  {
    assert EntryIs(v, base, counts, e);
  }

  // ---------------------------------------------------------------- the loops

  /** The counters of a node fit their row, and the row the flat form, or there are none. */
  lemma RowFits(stages: seq<Stage>, experts: nat, i: nat, p: nat)
    requires Fitted(stages, experts) && HasNode(stages, i, p)
    ensures NodeFits(stages, experts, i, p)
    ensures stages[i].nodes[p].children > 0 ==>
              Row(stages, experts, i, p) * experts + experts <= FlatSize(Layers(stages), experts)
  {
    assert NodeFits(stages, experts, i, p);
    if stages[i].nodes[p].children > 0 {
      RowBounds(Rank(stages, i), p, experts, Layers(stages) - 1);
    }
  }

  lemma RowUnique(stages: seq<Stage>, experts: nat, i: nat, p: nat, j: nat, q: nat)
    requires i < |stages| && j < |stages| && stages[i].sparse && stages[j].sparse && p < experts && q < experts
    requires Row(stages, experts, i, p) == Row(stages, experts, j, q)
    ensures i == j && p == q
  {
    SameQuotient(Rank(stages, i), p, Rank(stages, j), q, experts);
    RankUnique(stages, i, j);
  }

  /** The layer and expert counts at the head of the getter and the setter. */
  method CountLayers(stages: seq<Stage>) returns (layers: nat, experts: nat)
    ensures layers == Layers(stages) && experts == Experts(stages, |stages|)
  {
    layers, experts := 0, 0;
    for i := 0 to |stages|
      invariant layers == Rank(stages, i) && experts == Experts(stages, i)
    {
      if stages[i].sparse {
        layers, experts := layers + 1, |stages[i].nodes|;
      }
    }
  }

  /** v with row values put from `base` on. */
  method PutRow(v: seq<nat>, base: nat, counts: seq<nat>) returns (w: seq<nat>)
    requires base + |counts| <= |v|
    ensures |w| == |v| && RowIs(w, base, counts)
    ensures forall k :: 0 <= k < |v| && !(base <= k < base + |counts|) ==> w[k] == v[k]
  {
    w := v;
    for e := 0 to |counts|
      invariant |w| == |v| && RowUpTo(w, base, counts, e)
      invariant forall k :: 0 <= k < |v| && !(base <= k < base + e) ==> w[k] == v[k]
    {
      ghost var was := w;
      w := w[base + e := counts[e]];
      forall d: nat | d < e + 1 ensures EntryIs(w, base, counts, d) {
        assert d < e ==> EntryIs(was, base, counts, d);
      }
    }
  }

  method TakeRow(v: seq<nat>, base: nat, n: nat) returns (counts: seq<nat>)
    requires base + n <= |v|
    ensures |counts| == n && RowIs(v, base, counts)
  {
    counts := [];
    for e := 0 to n
      invariant |counts| == e && RowIs(v, base, counts)
    {
      ghost var was := counts;
      counts := counts + [v[base + e]];
      forall d: nat | d < e + 1 ensures EntryIs(v, base, counts, d) {
        assert d < e ==> EntryIs(v, base, was, d);
      }
    }
  }

  /** Writing a row keeps every row below it. */
  lemma RowKept(v: seq<nat>, w: seq<nat>, base: nat, counts: seq<nat>, edge: nat)
    requires RowIs(v, base, counts) && base + |counts| <= edge && |w| == |v|
    requires forall k :: 0 <= k < |v| && k < edge ==> w[k] == v[k]
    ensures RowIs(w, base, counts)
  {
    forall e: nat | e < |counts| ensures EntryIs(w, base, counts, e) {
      assert EntryIs(v, base, counts, e);
    }
  }

  lemma RowWritten(stages: seq<Stage>, experts: nat, v: seq<nat>, w: seq<nat>, i: nat, p: nat)
    requires Fitted(stages, experts) && HasNode(stages, i, p)
    requires RowsBelow(stages, experts, v, Row(stages, experts, i, p)) && |w| == |v|
    requires NodeAgrees(stages, experts, w, i, p)
    requires forall k :: 0 <= k < |v| && k < Row(stages, experts, i, p) * experts ==> w[k] == v[k]
    ensures RowsBelow(stages, experts, w, Row(stages, experts, i, p) + 1)
  {
    forall j: nat, q: nat | HasNode(stages, j, q) && Row(stages, experts, j, q) < Row(stages, experts, i, p) + 1
      ensures NodeAgrees(stages, experts, w, j, q)
    {
      assert NodeFits(stages, experts, i, p) && NodeFits(stages, experts, j, q);
      if Row(stages, experts, j, q) == Row(stages, experts, i, p) {
        RowUnique(stages, experts, i, p, j, q);
      } else {
        LowerRowKept(v, w, Row(stages, experts, j, q), stages[j].nodes[q].counts, Row(stages, experts, i, p), experts);
      }
    }
  }

  lemma LowerRowKept(v: seq<nat>, w: seq<nat>, r: nat, counts: seq<nat>, edge: nat, experts: nat)
    requires r < edge && |counts| <= experts && RowIs(v, r * experts, counts) && |w| == |v|
    requires forall k :: 0 <= k < |v| && k < edge * experts ==> w[k] == v[k]
    ensures RowIs(w, r * experts, counts)
  {
    MulLess(r, edge, experts);
    RowKept(v, w, r * experts, counts, edge * experts);
  }

  /** A place that no counter has is zero. */
  ghost predicate ZeroElsewhere(stages: seq<Stage>, experts: nat, v: seq<nat>) {
    forall k: nat :: k < |v| && !TakenPlace(stages, experts, k) ==> v[k] == 0
  }

  lemma {:induction false} RowIsTaken(stages: seq<Stage>, experts: nat, i: nat, p: nat, k: nat)
    requires HasNode(stages, i, p)
    requires Row(stages, experts, i, p) * experts <= k < Row(stages, experts, i, p) * experts + |stages[i].nodes[p].counts|
    ensures TakenPlace(stages, experts, k)
  {
    var e: nat := k - Row(stages, experts, i, p) * experts;
    PositionIsRow(Rank(stages, i), p, e, experts);
    assert HasCounter(stages, i, p, e) && PositionOf(stages, experts, i, p, e) == k;
  }

  /** One node of the getter. */
  method GetNode(stages: seq<Stage>, experts: nat, layer: nat, i: nat, p: nat, v: seq<nat>) returns (w: seq<nat>)
    requires Fitted(stages, experts) && HasNode(stages, i, p) && layer == Rank(stages, i)
    requires |v| == FlatSize(Layers(stages), experts) && RowsBelow(stages, experts, v, layer * experts + p)
    requires ZeroElsewhere(stages, experts, v)
    ensures |w| == |v| && RowsBelow(stages, experts, w, layer * experts + p + 1) && ZeroElsewhere(stages, experts, w)
  {
    RowFits(stages, experts, i, p);
    w := v;
    if stages[i].nodes[p].children > 0 {
      PositionIsRow(layer, p, 0, experts);
      w := PutRow(v, layer * experts * experts + p * experts, stages[i].nodes[p].counts);
      forall k: nat | k < |w| && !TakenPlace(stages, experts, k) ensures w[k] == v[k] {
        var base := Row(stages, experts, i, p) * experts;
        if base <= k < base + |stages[i].nodes[p].counts| { RowIsTaken(stages, experts, i, p, k); }
      }
    }
    RowWritten(stages, experts, v, w, i, p);
  }

  /** One stage of the getter. */
  method GetStage(stages: seq<Stage>, experts: nat, layer: nat, i: nat, v: seq<nat>) returns (w: seq<nat>)
    requires Fitted(stages, experts) && i < |stages| && stages[i].sparse && layer == Rank(stages, i)
    requires |v| == FlatSize(Layers(stages), experts) && RowsBelow(stages, experts, v, layer * experts)
    requires ZeroElsewhere(stages, experts, v)
    ensures |w| == |v| && RowsBelow(stages, experts, w, (layer + 1) * experts) && ZeroElsewhere(stages, experts, w)
  {
    w := v;
    for p := 0 to |stages[i].nodes|
      invariant |w| == |v| && RowsBelow(stages, experts, w, layer * experts + p) && ZeroElsewhere(stages, experts, w)
    {
      w := GetNode(stages, experts, layer, i, p, w);
    }
    StageDone(stages, experts, w, i);
  }

  /** No row lies between the nodes of a stage and the next layer. */
  lemma RowInStage(stages: seq<Stage>, experts: nat, i: nat, j: nat, q: nat)
    requires i < |stages| && stages[i].sparse && HasNode(stages, j, q) && q < experts
    requires Row(stages, experts, j, q) < (Rank(stages, i) + 1) * experts
    ensures Row(stages, experts, j, q) < Rank(stages, i) * experts + |stages[i].nodes|
  {
    var a, b := Rank(stages, j), Rank(stages, i);
    if a < b {
      RowBefore(a, q, b, experts);
    } else if b < a {
      RowAfter(a, q, b, experts);
    } else {
      RankUnique(stages, i, j);
    }
  }

  lemma RowBefore(a: nat, q: nat, b: nat, n: nat)
    requires q < n && a < b
    ensures a * n + q < b * n
  {
    MulLess(a, b, n);
  }

  lemma RowAfter(a: nat, q: nat, b: nat, n: nat)
    requires b < a
    ensures (b + 1) * n <= a * n + q
  {
    MulLess(b, a, n);
  }

  lemma StageDone(stages: seq<Stage>, experts: nat, v: seq<nat>, i: nat)
    requires Fitted(stages, experts) && i < |stages| && stages[i].sparse
    requires RowsBelow(stages, experts, v, Rank(stages, i) * experts + |stages[i].nodes|)
    ensures RowsBelow(stages, experts, v, (Rank(stages, i) + 1) * experts)
  {
    forall j: nat, q: nat | HasNode(stages, j, q) && Row(stages, experts, j, q) < (Rank(stages, i) + 1) * experts
      ensures NodeAgrees(stages, experts, v, j, q)
    {
      assert NodeFits(stages, experts, j, q);
      RowInStage(stages, experts, i, j, q);
    }
  }

  /** GetChildVisitCounts. */
  method GetChildVisitCounts(stages: seq<Stage>) returns (v: seq<nat>)
    requires Fitted(stages, Experts(stages, |stages|))
    ensures |v| == FlatSize(Layers(stages), Experts(stages, |stages|))
    ensures Agrees(stages, Experts(stages, |stages|), v) && ZeroElsewhere(stages, Experts(stages, |stages|), v)
    ensures Even(stages, Experts(stages, |stages|)) ==> v == Walk(stages, |stages|)
  {
    var layers, experts := CountLayers(stages);
    v := seq(FlatSize(layers, experts), _ => 0);
    var layer := 0;
    for i := 0 to |stages|
      invariant |v| == FlatSize(layers, experts) && ZeroElsewhere(stages, experts, v)
      invariant layer == Rank(stages, i) && RowsBelow(stages, experts, v, layer * experts)
    {
      if stages[i].sparse {
        v := GetStage(stages, experts, layer, i, v);
        layer := layer + 1;
      }
    }
    AllRows(stages, experts, v);
    if Even(stages, experts) { FlatIsWalk(stages, experts, v); }
  }

  lemma AllRows(stages: seq<Stage>, experts: nat, v: seq<nat>)
    requires Fitted(stages, experts) && RowsBelow(stages, experts, v, Layers(stages) * experts)
    ensures Agrees(stages, experts, v)
  {
    forall i: nat, p: nat | HasNode(stages, i, p) ensures NodeAgrees(stages, experts, v, i, p) {
      RowFits(stages, experts, i, p);
      RankGrows(stages, i + 1, |stages|);
      MulLess(Rank(stages, i), Layers(stages), experts);
    }
  }

  // ---------------------------------------------------------------- setting

  lemma SameShapeFitted(s: seq<Stage>, t: seq<Stage>, experts: nat)
    requires SameShape(s, t) && Fitted(s, experts)
    ensures Fitted(t, experts) && Layers(t) == Layers(s)
  {
    SameRank(s, t, |s|);
    forall i: nat, p: nat | HasNode(t, i, p) ensures NodeFits(t, experts, i, p) {
      SameRank(s, t, i);
      assert SameStage(s[i], t[i]);
      assert NodeFits(s, experts, i, p);
    }
  }

  lemma SameShapeTrans(s: seq<Stage>, t: seq<Stage>, u: seq<Stage>)
    requires SameShape(s, t) && SameShape(t, u)
    ensures SameShape(s, u)
  {
    forall i: nat | i < |s| ensures SameStage(s[i], u[i]) {
      assert SameStage(s[i], t[i]) && SameStage(t[i], u[i]);
    }
  }

  /** The pipeline with one node's counters replaced. */
  function WithCounts(stages: seq<Stage>, i: nat, p: nat, counts: seq<nat>): seq<Stage>
    requires HasNode(stages, i, p)
  {
    stages[i := stages[i].(nodes := stages[i].nodes[p := stages[i].nodes[p].(counts := counts)])]
  }

  lemma CountsWritten(s: seq<Stage>, experts: nat, v: seq<nat>, i: nat, p: nat, counts: seq<nat>)
    requires Fitted(s, experts) && HasNode(s, i, p) && |counts| == |s[i].nodes[p].counts|
    requires RowsBelow(s, experts, v, Row(s, experts, i, p)) && RowIs(v, Row(s, experts, i, p) * experts, counts)
    ensures SameShape(s, WithCounts(s, i, p, counts))
    ensures RowsBelow(WithCounts(s, i, p, counts), experts, v, Row(s, experts, i, p) + 1)
  {
    var t := WithCounts(s, i, p, counts);
    assert forall j: nat :: j < |s| ==> SameStage(s[j], t[j]);
    forall j: nat, q: nat | HasNode(t, j, q) && Row(t, experts, j, q) < Row(s, experts, i, p) + 1
      ensures NodeAgrees(t, experts, v, j, q)
    {
      SameRank(s, t, j);
      assert HasNode(s, j, q);
      RowFits(s, experts, i, p);
      RowFits(s, experts, j, q);
      if Row(s, experts, j, q) == Row(s, experts, i, p) {
        RowUnique(s, experts, i, p, j, q);
      } else {
        assert NodeAgrees(s, experts, v, j, q);
      }
    }
  }

  /** One node of the setter. */
  method ReadNode(stages: seq<Stage>, v: seq<nat>, experts: nat, layer: nat, i: nat, p: nat) returns (counts: seq<nat>)
    requires Fitted(stages, experts) && HasNode(stages, i, p) && layer == Rank(stages, i)
    requires |v| == FlatSize(Layers(stages), experts)
    ensures |counts| == |stages[i].nodes[p].counts| && RowIs(v, Row(stages, experts, i, p) * experts, counts)
  {
    RowFits(stages, experts, i, p);
    counts := stages[i].nodes[p].counts;
    if stages[i].nodes[p].children > 0 {
      PositionIsRow(layer, p, 0, experts);
      counts := TakeRow(v, layer * experts * experts + p * experts, |counts|);
    }
  }

  /** The handle's pipeline. */
  class Topology {
    var stages: seq<Stage>

    constructor (sizes: seq<nat>)
      ensures Built(stages, sizes) && AllZero(stages)
    {
      stages := [];
      new;
      stages := Initialize(sizes);
    }

    method SetNode(v: seq<nat>, experts: nat, layer: nat, i: nat, p: nat)
      requires Fitted(stages, experts) && HasNode(stages, i, p) && layer == Rank(stages, i)
      requires |v| == FlatSize(Layers(stages), experts) && RowsBelow(stages, experts, v, layer * experts + p)
      modifies this
      ensures SameShape(old(stages), stages) && RowsBelow(stages, experts, v, layer * experts + p + 1)
    {
      var counts := ReadNode(stages, v, experts, layer, i, p);
      CountsWritten(stages, experts, v, i, p, counts);
      stages := WithCounts(stages, i, p, counts);
    }

    method SetStage(v: seq<nat>, experts: nat, layer: nat, i: nat)
      requires Fitted(stages, experts) && i < |stages| && stages[i].sparse && layer == Rank(stages, i)
      requires |v| == FlatSize(Layers(stages), experts) && RowsBelow(stages, experts, v, layer * experts)
      modifies this
      ensures SameShape(old(stages), stages) && RowsBelow(stages, experts, v, (layer + 1) * experts)
    {
      ghost var was := stages;
      for p := 0 to |stages[i].nodes|
        invariant SameShape(was, stages) && RowsBelow(stages, experts, v, layer * experts + p)
      {
        SameShapeFitted(was, stages, experts);
        SameRank(was, stages, i);
        assert SameStage(was[i], stages[i]);
        ghost var mid := stages;
        SetNode(v, experts, layer, i, p);
        SameShapeTrans(was, mid, stages);
      }
      SameShapeFitted(was, stages, experts);
      SameRank(was, stages, i);
      assert SameStage(was[i], stages[i]);
      StageDone(stages, experts, v, i);
    }

    /** SetChildVisitCounts: a vector of another length changes nothing. */
    method SetChildVisitCounts(v: seq<nat>)
      requires Fitted(stages, Experts(stages, |stages|))
      modifies this
      ensures var experts := Experts(old(stages), |old(stages)|);
              if |v| != FlatSize(Layers(old(stages)), experts) then stages == old(stages)
              else SameShape(old(stages), stages) && Agrees(stages, experts, v)
    {
      var layers, experts := CountLayers(stages);
      if |v| != FlatSize(layers, experts) {
        return;
      }
      SetAll(v, experts);
    }

    method SetAll(v: seq<nat>, experts: nat)
      requires Fitted(stages, experts) && |v| == FlatSize(Layers(stages), experts)
      modifies this
      ensures SameShape(old(stages), stages) && Agrees(stages, experts, v)
    {
      ghost var was := stages;
      var layer := 0;
      for i := 0 to |stages|
        invariant SameShape(was, stages) && layer == Rank(was, i)
        invariant RowsBelow(stages, experts, v, layer * experts)
      {
        assert SameStage(was[i], stages[i]);
        if stages[i].sparse {
          SameShapeFitted(was, stages, experts);
          SameRank(was, stages, i);
          ghost var mid := stages;
          SetStage(v, experts, layer, i);
          SameShapeTrans(was, mid, stages);
          layer := layer + 1;
        }
      }
      SameShapeFitted(was, stages, experts);
      AllRows(stages, experts, v);
    }

    /** Reading the counters and setting them again leaves the pipeline as it is. */
    method SaveAndRestore() returns (v: seq<nat>)
      requires Fitted(stages, Experts(stages, |stages|))
      modifies this
      ensures stages == old(stages) && Agrees(stages, Experts(stages, |stages|), v)
    {
      v := GetChildVisitCounts(stages);
      SetChildVisitCounts(v);
      SetAfterGet(old(stages), stages, Experts(old(stages), |old(stages)|), v);
    }
  }
}
