/** Nodes moving onto and off GPUs over the device memory pool, with modules taking scratch buffers. */
module DeviceNodes {
  import opened DeviceMemory

  datatype Spot = Off | On(gpu: nat, ptr: Ptr)

  datatype Node = Node(size: nat, spot: Spot)

  /** `scratch` are the buffers that modules took straight from the allocator and never return. */
  datatype Machine = Machine(pool: Pool, nodes: seq<Node>, scratch: set<Ptr>)

  /** A node moves onto or off a GPU, its number being its id, or a module takes a scratch buffer. */
  datatype Move = Up(n: nat, gpu: nat, answer: Answer) | Down(n: nat) | Grab(gpu: nat, bytes: nat, answer: Answer)

  predicate Enabled(m: Machine, v: Move) {
    && Sized(m.pool, |m.pool.avail|)
    && match v
       case Up(n, g, a) => n < |m.nodes| && m.nodes[n].spot.Off? && g < |m.pool.avail| && AnswerOk(m.pool, g, m.nodes[n].size, a)
       case Down(n) => n < |m.nodes| && m.nodes[n].spot.On? && m.nodes[n].spot.gpu < |m.pool.avail|
       case Grab(g, bytes, a) => g < |m.pool.avail| && AnswerOk(m.pool, g, bytes, a)
  }

  function Apply(m: Machine, v: Move): Machine
    requires Enabled(m, v)
  {
    match v
    case Up(n, g, a) =>
      var (p, ptr) := AllocateMemory(m.pool, n, m.nodes[n].size, g, a);
      m.(pool := p, nodes := m.nodes[n := m.nodes[n].(spot := On(g, ptr))])
    case Down(n) =>
      var spot := m.nodes[n].spot;
      var (p, _) := FreeMemory(m.pool, n, spot.ptr, m.nodes[n].size, spot.gpu);
      m.(pool := p, nodes := m.nodes[n := m.nodes[n].(spot := Off)])
    case Grab(g, bytes, a) =>
      var (p, ptr) := Allocate(m.pool, g, bytes, a);
      m.(pool := p, scratch := m.scratch + {ptr})
  }

  predicate Run(m: Machine, moves: seq<Move>)
    decreases |moves|
  {
    moves == [] || (Enabled(m, moves[0]) && Run(Apply(m, moves[0]), moves[1..]))
  }

  function After(m: Machine, moves: seq<Move>): Machine
    requires Run(m, moves)
    decreases |moves|
  {
    if moves == [] then m else After(Apply(m, moves[0]), moves[1..])
  }

  // ---------------------------------------------------------------- the invariant

  /** The pool knows a node exactly on its GPU, with its pointer and its size. */
  ghost predicate NodeOk(m: Machine, n: nat)
    requires n < |m.nodes|
  {
    match m.nodes[n].spot
    case Off => forall g: nat :: !HasKey(m.pool, g, n)
    case On(g, ptr) =>
      && HasKey(m.pool, g, n) && (forall h: nat :: HasKey(m.pool, h, n) ==> h == g)
      && m.pool.ids[g][n] == ptr && ptr in m.pool.sizes && m.pool.sizes[ptr] == m.nodes[n].size
  }

  ghost predicate NodesOk(m: Machine) {
    && (forall n: nat :: n < |m.nodes| ==> NodeOk(m, n))
    && (forall g: nat, key: nat :: HasKey(m.pool, g, key) ==> key < |m.nodes|)
  }

  ghost predicate ScratchOk(m: Machine, r: Roles) {
    forall ptr :: ptr in m.scratch <==> ptr in r && r[ptr].Scratch?
  }

  ghost predicate MachineInv(m: Machine, capacity: seq<int>, r: Roles) {
    Inv(m.pool, capacity, r) && NodesOk(m) && ScratchOk(m, r)
  }

  lemma UpInv(m: Machine, capacity: seq<int>, r: Roles, n: nat, g: nat, a: Answer) returns (k: Roles)
    requires MachineInv(m, capacity, r) && Enabled(m, Up(n, g, a))
    ensures MachineInv(Apply(m, Up(n, g, a)), capacity, k)
  {
    assert NodeOk(m, n) && !HasKey(m.pool, g, n);
    k := AllocateInv(m.pool, capacity, r, n, m.nodes[n].size, g, a);
    var t := Apply(m, Up(n, g, a));
    forall i: nat | i < |t.nodes| ensures NodeOk(t, i) { UpNode(m, capacity, r, n, g, a, i); }
    forall h: nat, key: nat | HasKey(t.pool, h, key) ensures key < |t.nodes| { assert key == n || HasKey(m.pool, h, key); }
  }

  /** What allocation does to the sizes of memory already held. */
  lemma UpNode(m: Machine, capacity: seq<int>, r: Roles, n: nat, g: nat, a: Answer, i: nat)
    requires MachineInv(m, capacity, r) && Enabled(m, Up(n, g, a)) && i < |m.nodes|
    ensures NodeOk(Apply(m, Up(n, g, a)), i)
  {
    var t := Apply(m, Up(n, g, a));
    assert NodeOk(m, n) && NodeOk(m, i) && !HasKey(m.pool, g, n);
    AllocateKeeps(m.pool, capacity, r, g, m.nodes[n].size, a);
    forall h: nat, key: nat ensures HasKey(t.pool, h, key) <==> HasKey(m.pool, h, key) || (h == g && key == n) { }
    if i != n && m.nodes[i].spot.On? { assert HasKey(m.pool, m.nodes[i].spot.gpu, i); }
  }

  /** Allocation leaves the keys, and the sizes of held memory, as they are. */
  lemma AllocateKeeps(p: Pool, capacity: seq<int>, r: Roles, g: nat, bytes: nat, a: Answer)
    requires Inv(p, capacity, r) && g < |p.avail| && AnswerOk(p, g, bytes, a)
    ensures var (q, ptr) := Allocate(p, g, bytes, a);
            && q.ids == p.ids && q.free == p.free && |q.avail| == |p.avail| && ptr in q.sizes && q.sizes[ptr] == bytes
            && forall h: nat, key: nat :: HasKey(p, h, key) ==>
                 p.ids[h][key] in p.sizes && p.ids[h][key] in q.sizes && q.sizes[p.ids[h][key]] == p.sizes[p.ids[h][key]]
  {
    var k := AllocateLoose(p, capacity, r, g, bytes, a);
    var (q, ptr) := Allocate(p, g, bytes, a);
    forall h: nat, key: nat | HasKey(p, h, key)
      ensures p.ids[h][key] in p.sizes && p.ids[h][key] in q.sizes && q.sizes[p.ids[h][key]] == p.sizes[p.ids[h][key]]
    {
      assert HeldOk(p, r, h, key) && HeldOk(q, k, h, key);
    }
  }

  lemma DownInv(m: Machine, capacity: seq<int>, r: Roles, n: nat) returns (k: Roles)
    requires MachineInv(m, capacity, r) && Enabled(m, Down(n))
    ensures MachineInv(Apply(m, Down(n)), capacity, k)
  {
    assert NodeOk(m, n);
    var g, ptr := m.nodes[n].spot.gpu, m.nodes[n].spot.ptr;
    k := FreeInv(m.pool, capacity, r, n, ptr, m.nodes[n].size, g);
    var t := Apply(m, Down(n));
    forall h: nat, key: nat ensures HasKey(t.pool, h, key) <==> HasKey(m.pool, h, key) && !(h == g && key == n) { }
    forall i: nat | i < |t.nodes| ensures NodeOk(t, i) { assert NodeOk(m, i); }
  }

  lemma GrabNodes(m: Machine, capacity: seq<int>, r: Roles, g: nat, bytes: nat, a: Answer)
    requires MachineInv(m, capacity, r) && Enabled(m, Grab(g, bytes, a))
    ensures NodesOk(Apply(m, Grab(g, bytes, a)))
  {
    AllocateKeeps(m.pool, capacity, r, g, bytes, a);
    var t := Apply(m, Grab(g, bytes, a));
    forall h: nat, key: nat ensures HasKey(t.pool, h, key) <==> HasKey(m.pool, h, key) { }
    forall i: nat | i < |t.nodes| ensures NodeOk(t, i) { assert NodeOk(m, i); }
  }

  lemma GrabInv(m: Machine, capacity: seq<int>, r: Roles, g: nat, bytes: nat, a: Answer) returns (k: Roles)
    requires MachineInv(m, capacity, r) && Enabled(m, Grab(g, bytes, a))
    ensures MachineInv(Apply(m, Grab(g, bytes, a)), capacity, k)
  {
    k := ScratchStep(m.pool, capacity, r, g, bytes, a);
    GrabNodes(m, capacity, r, g, bytes, a);
    var t, ptr := Apply(m, Grab(g, bytes, a)), Allocate(m.pool, g, bytes, a).1;
    forall x ensures x in t.scratch <==> x in k && k[x].Scratch? {
      if x != ptr { assert x in m.scratch <==> x in r && r[x].Scratch?; }
    }
  }

  lemma {:induction false} RunKeepsInv(m: Machine, capacity: seq<int>, r: Roles, moves: seq<Move>) returns (k: Roles)
    requires MachineInv(m, capacity, r) && Run(m, moves)
    ensures MachineInv(After(m, moves), capacity, k)
    decreases |moves|
  {
    if moves == [] {
      k := r;
    } else {
      match moves[0] {
        case Up(n, g, a) => k := UpInv(m, capacity, r, n, g, a);
        case Down(n) => k := DownInv(m, capacity, r, n);
        case Grab(g, bytes, a) => k := GrabInv(m, capacity, r, g, bytes, a);
      }
      k := RunKeepsInv(Apply(m, moves[0]), capacity, k, moves[1..]);
    }
  }

  /** All nodes off, nothing allocated, all memory free. */
  predicate Fresh(m: Machine, capacity: seq<int>) {
    m.pool == Empty(capacity) && m.scratch == {} && forall n :: 0 <= n < |m.nodes| ==> m.nodes[n].spot.Off?
  }

  ghost predicate Reachable(m: Machine, capacity: seq<int>) {
    exists start: Machine, moves: seq<Move> :: Fresh(start, capacity) && Run(start, moves) && m == After(start, moves)
  }

  lemma ReachableInv(m: Machine, capacity: seq<int>) returns (r: Roles)
    requires Reachable(m, capacity)
    ensures MachineInv(m, capacity, r)
  {
    var start: Machine, moves: seq<Move> :| Fresh(start, capacity) && Run(start, moves) && m == After(start, moves);
    EmptyInv(capacity);
    r := RunKeepsInv(start, capacity, map[], moves);
  }

  // ---------------------------------------------------------------- theorems

  predicate About(v: Move, n: nat) { (v.Up? || v.Down?) && v.n == n }

  /** Move i is the last one of node n. */
  ghost predicate LastAbout(moves: seq<Move>, n: nat, i: nat) {
    i < |moves| && About(moves[i], n) && forall k :: i < k < |moves| ==> !About(moves[k], n)
  }

  /** A node is on the GPU that its last move names, off if that move was down, and where it was if
      there was none. */
  lemma {:induction false} SpotIsLastMove(m: Machine, moves: seq<Move>, n: nat)
    requires Run(m, moves) && n < |m.nodes|
    ensures var t := After(m, moves);
            && |t.nodes| == |m.nodes| && t.nodes[n].size == m.nodes[n].size
            && ((forall i :: 0 <= i < |moves| ==> !About(moves[i], n)) ==> t.nodes[n].spot == m.nodes[n].spot)
            && forall i: nat :: LastAbout(moves, n, i) ==>
                 match moves[i]
                 case Up(_, g, _) => t.nodes[n].spot.On? && t.nodes[n].spot.gpu == g
                 case _ => t.nodes[n].spot.Off?
    decreases |moves|
  {
    if moves != [] {
      SpotIsLastMove(Apply(m, moves[0]), moves[1..], n);
      forall i: nat | i > 0 && LastAbout(moves, n, i) ensures LastAbout(moves[1..], n, i - 1) { }
    }
  }

  /** No two nodes ever share a byte of device memory, and a node's memory has its size, is on its
      GPU and is recorded under its id there. */
  lemma LiveMemoryIsPrivate(m: Machine, capacity: seq<int>, a: nat, b: nat)
    requires Reachable(m, capacity) && a < |m.nodes| && b < |m.nodes| && m.nodes[a].spot.On?
    ensures m.nodes[b].spot.On? && a != b ==>
              && m.nodes[a].spot.ptr != m.nodes[b].spot.ptr
              && Clear(m.nodes[a].spot.ptr, m.nodes[a].size, m.nodes[b].spot.ptr, m.nodes[b].size)
    ensures var x := m.nodes[a];
            && HasKey(m.pool, x.spot.gpu, a) && m.pool.ids[x.spot.gpu][a] == x.spot.ptr
            && Private(m.pool, x.spot.gpu, a) && m.pool.sizes[x.spot.ptr] == x.size
  {
    var r := ReachableInv(m, capacity);
    assert NodeOk(m, a) && NodeOk(m, b);
    KeyIsPrivate(m.pool, capacity, r, m.nodes[a].spot.gpu, a);
  }

  /** A cached pointer is cached once, under its own size and on its own device, and shares no byte
      with a node or a scratch buffer; so whatever allocate pops has the size asked for and is idle. */
  lemma CachedMemoryIsIdle(m: Machine, capacity: seq<int>, g: nat, b: nat, i: nat)
    requires Reachable(m, capacity) && HasSpare(m.pool, g, b, i)
    ensures var ptr := m.pool.avail[g][b][i];
            && ptr in m.pool.sizes && m.pool.sizes[ptr] == b && ptr in m.pool.home && m.pool.home[ptr] == g
            && ptr !in m.scratch
            && (forall n :: 0 <= n < |m.nodes| && m.nodes[n].spot.On? ==>
                  m.nodes[n].spot.ptr != ptr && Clear(m.nodes[n].spot.ptr, m.nodes[n].size, ptr, b))
            && (forall h: nat, c: nat, j: nat :: HasSpare(m.pool, h, c, j) && m.pool.avail[h][c][j] == ptr ==>
                  h == g && c == b && j == i)
  {
    var r := ReachableInv(m, capacity);
    var ptr := m.pool.avail[g][b][i];
    assert SpareOk(m.pool, r, g, b, i);
    forall n: nat | n < |m.nodes| && m.nodes[n].spot.On?
      ensures m.nodes[n].spot.ptr != ptr && Clear(m.nodes[n].spot.ptr, m.nodes[n].size, ptr, b)
    {
      assert NodeOk(m, n) && HeldOk(m.pool, r, m.nodes[n].spot.gpu, n);
    }
    forall h: nat, c: nat, j: nat | HasSpare(m.pool, h, c, j) && m.pool.avail[h][c][j] == ptr ensures h == g && c == b && j == i {
      assert SpareOk(m.pool, r, h, c, j);
    }
  }

  /** A scratch buffer is never cached and shares no byte with a node. */
  lemma ScratchIsPrivate(m: Machine, capacity: seq<int>, ptr: Ptr, n: nat)
    requires Reachable(m, capacity) && ptr in m.scratch && n < |m.nodes| && m.nodes[n].spot.On?
    ensures ptr in m.pool.sizes && ptr != m.nodes[n].spot.ptr
    ensures Clear(ptr, m.pool.sizes[ptr], m.nodes[n].spot.ptr, m.nodes[n].size)
  {
    var r := ReachableInv(m, capacity);
    assert NodeOk(m, n) && HeldOk(m.pool, r, m.nodes[n].spot.gpu, n);
  }

  /** Nothing else leaks: an allocated pointer is a node's, waits in a cache, or is a scratch buffer. */
  lemma NoLostMemory(m: Machine, capacity: seq<int>, ptr: Ptr)
    requires Reachable(m, capacity) && ptr in m.pool.sizes
    ensures || (exists n: nat :: n < |m.nodes| && m.nodes[n].spot.On? && m.nodes[n].spot.ptr == ptr)
            || (exists g: nat, b: nat, i: nat :: HasSpare(m.pool, g, b, i) && m.pool.avail[g][b][i] == ptr)
            || ptr in m.scratch
  {
    var r := ReachableInv(m, capacity);
    assert RoleOk(m.pool, r, ptr);
    if r[ptr].Held? { assert NodeOk(m, r[ptr].key); }
  }

  function Share(x: Node, g: nat): nat { if x.spot.On? && x.spot.gpu == g then x.size else 0 }

  function LiveBytes(nodes: seq<Node>, g: nat): nat {
    if nodes == [] then 0 else LiveBytes(nodes[..|nodes| - 1], g) + Share(nodes[|nodes| - 1], g)
  }

  function Below(ids: map<nat, Ptr>, n: nat): map<nat, Ptr> { map k | k in ids && k < n :: ids[k] }

  /** The bytes under the keys are those of the nodes. */
  lemma {:induction false} HeldIsLive(m: Machine, g: nat, n: nat)
    requires NodesOk(m) && g < |m.pool.ids| && n <= |m.nodes|
    ensures HeldBytes(Below(m.pool.ids[g], n), m.pool.sizes) == LiveBytes(m.nodes[..n], g)
  {
    var ids := m.pool.ids[g];
    if n == 0 {
      assert Below(ids, 0) == map[];
    } else {
      HeldIsLive(m, g, n - 1);
      assert NodeOk(m, n - 1);
      assert m.nodes[..n][..n - 1] == m.nodes[..n - 1];
      if HasKey(m.pool, g, n - 1) {
        HeldBytesDrop(Below(ids, n), m.pool.sizes, n - 1);
        assert Below(ids, n) - {n - 1} == Below(ids, n - 1);
      } else {
        assert Below(ids, n) == Below(ids, n - 1);
      }
    }
  }

  /** On every GPU, free memory and the bytes of its nodes add up to the capacity. */
  lemma MemoryConserved(m: Machine, capacity: seq<int>, g: nat)
    requires Reachable(m, capacity) && g < |capacity|
    ensures g < |m.pool.free| && m.pool.free[g] + LiveBytes(m.nodes, g) == capacity[g]
  {
    var r := ReachableInv(m, capacity);
    HeldIsLive(m, g, |m.nodes|);
    assert m.nodes[..|m.nodes|] == m.nodes;
    forall key | key in m.pool.ids[g] ensures key < |m.nodes| { assert HasKey(m.pool, g, key); }
    assert Below(m.pool.ids[g], |m.nodes|) == m.pool.ids[g];
  }

  /** No move meets the error branches of the pool: the id is unknown when a node arrives and
      known when it leaves. */
  lemma NoPoolErrors(m: Machine, capacity: seq<int>, v: Move)
    requires Reachable(m, capacity) && Enabled(m, v)
    ensures v.Up? ==> v.n !in m.pool.ids[v.gpu]
    ensures v.Down? ==> FreeMemory(m.pool, v.n, m.nodes[v.n].spot.ptr, m.nodes[v.n].size, m.nodes[v.n].spot.gpu).1 == 0
  {
    var r := ReachableInv(m, capacity);
    if !v.Grab? { assert NodeOk(m, v.n); }
    if v.Up? { assert !HasKey(m.pool, v.gpu, v.n); }
  }
}
