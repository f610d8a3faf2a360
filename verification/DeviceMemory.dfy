/** GPU memory: the per-device pool over the caching allocator. */
module DeviceMemory {

  type Ptr = nat

  /** The cached pointers of one device by size. */
  type Cache = map<nat, seq<Ptr>>

  /** What cudaMalloc answers: a pointer at once, or only after the cache was given back. */
  datatype Answer = Granted(ptr: Ptr) | AfterFlush(ptr: Ptr)

  /** `sizes` is the allocation map shared by all devices; `home` is the device each pointer was
      allocated on, which the driver knows. Lists are indexed by device. */
  datatype Pool = Pool(sizes: map<Ptr, nat>, home: map<Ptr, nat>, avail: seq<Cache>, ids: seq<map<nat, Ptr>>, free: seq<int>)

  predicate Sized(p: Pool, gpus: nat) {
    |p.avail| == |p.ids| == |p.free| == gpus
  }

  function Cached(c: Cache): set<Ptr> {
    set b, i | b in c && 0 <= i < |c[b]| :: c[b][i]
  }

  /** free_cached: every cached pointer of the device goes back to the driver. */
  function Flush(p: Pool, g: nat): (r: Pool)
    requires g < |p.avail|
    ensures |r.avail| == |p.avail| && r.ids == p.ids && r.free == p.free
  {
    var gone := Cached(p.avail[g]);
    p.(sizes := map q | q in p.sizes && q !in gone :: p.sizes[q], avail := p.avail[g := map[]])
  }

  /** The cached pointers of one size. */
  function ListOf(p: Pool, g: nat, bytes: nat): seq<Ptr>
    requires g < |p.avail|
  {
    if bytes in p.avail[g] then p.avail[g][bytes] else []
  }

  predicate Reusable(p: Pool, g: nat, bytes: nat)
    requires g < |p.avail|
  {
    bytes in p.avail[g] && |p.avail[g][bytes]| > 0
  }

  /** Two memory ranges share no byte. */
  predicate Clear(a: Ptr, n: nat, b: Ptr, m: nat) { a + n <= b || b + m <= a }

  /** A range clear of all memory that is still allocated. */
  predicate FreshRange(sizes: map<Ptr, nat>, ptr: Ptr, bytes: nat) {
    ptr !in sizes && forall q :: q in sizes ==> Clear(ptr, bytes, q, sizes[q])
  }

  /** cudaMalloc, if it is asked at all, returns memory clear of what is still allocated. */
  predicate AnswerOk(p: Pool, g: nat, bytes: nat, a: Answer)
    requires g < |p.avail|
  {
    || Reusable(p, g, bytes)
    || FreshRange(if a.Granted? then p.sizes else Flush(p, g).sizes, a.ptr, bytes)
  }

  function SetList(p: Pool, g: nat, bytes: nat, list: seq<Ptr>): Pool
    requires g < |p.avail|
  {
    var cache: Cache := p.avail[g][bytes := list];
    p.(avail := p.avail[g := cache])
  }

  function SetId(p: Pool, g: nat, key: nat, ptr: Ptr): Pool
    requires g < |p.ids|
  {
    var ids: map<nat, Ptr> := p.ids[g][key := ptr];
    p.(ids := p.ids[g := ids])
  }

  function DropId(p: Pool, g: nat, key: nat): Pool
    requires g < |p.ids|
  {
    p.(ids := p.ids[g := p.ids[g] - {key}])
  }

  function Credit(p: Pool, g: nat, size: int): Pool
    requires g < |p.free|
  {
    p.(free := p.free[g := p.free[g] + size])
  }

  function Record(p: Pool, g: nat, ptr: Ptr, bytes: nat): Pool {
    p.(sizes := p.sizes[ptr := bytes], home := p.home[ptr := g])
  }

  /** DeviceCachingAllocator::allocate. */
  function Allocate(p: Pool, g: nat, bytes: nat, a: Answer): (Pool, Ptr)
    requires g < |p.avail|
  {
    if Reusable(p, g, bytes) then
      var list := p.avail[g][bytes];
      (SetList(p, g, bytes, list[..|list| - 1]), list[|list| - 1])
    else
      (Record(if a.Granted? then p else Flush(p, g), g, a.ptr, bytes), a.ptr)
  }

  /** DeviceCachingAllocator::free: a pointer of ours is cached under its size. */
  function Release(p: Pool, g: nat, ptr: Ptr): Pool
    requires g < |p.avail|
  {
    if ptr !in p.sizes then p else
      var bytes := p.sizes[ptr];
      SetList(p, g, bytes, ListOf(p, g, bytes) + [ptr])
  }

  /** AllocateMemory: a key already present gets its old pointer back. */
  function AllocateMemory(p: Pool, key: nat, size: nat, g: nat, a: Answer): (Pool, Ptr)
    requires Sized(p, |p.avail|) && g < |p.avail|
  {
    if key in p.ids[g] then (p, p.ids[g][key]) else
      var (q, ptr) := Allocate(p, g, size, a);
      (SetId(Credit(q, g, -(size as int)), g, key, ptr), ptr)
  }

  /** FreeMemory: an unknown key changes nothing and reports -1. */
  function FreeMemory(p: Pool, key: nat, ptr: Ptr, size: nat, g: nat): (Pool, int)
    requires Sized(p, |p.avail|) && g < |p.avail|
  {
    if key !in p.ids[g] then (p, -1) else
      (Credit(Release(DropId(p, g, key), g, ptr), g, size), 0)
  }

  // ---------------------------------------------------------------- the invariant

  /** What an allocated pointer is used for: held under a key, cached, or a scratch buffer that a
      module took straight from the allocator. */
  datatype Role = Held(gpu: nat, key: nat) | Spare(gpu: nat, bytes: nat, i: nat) | Scratch(gpu: nat)

  /** One role for each pointer: the witness that held, cached and scratch pointers are all distinct. */
  type Roles = map<Ptr, Role>

  predicate HoldsOk(p: Pool, r: Roles, ptr: Ptr, role: Role, g: nat) {
    ptr in p.sizes && ptr in p.home && ptr in r && r[ptr] == role && p.home[ptr] == g
  }

  predicate HasKey(p: Pool, g: nat, key: nat) { g < |p.ids| && key in p.ids[g] }

  predicate HeldOk(p: Pool, r: Roles, g: nat, key: nat) {
    HasKey(p, g, key) ==> HoldsOk(p, r, p.ids[g][key], Held(g, key), g)
  }

  predicate HasSpare(p: Pool, g: nat, b: nat, i: nat) {
    g < |p.avail| && b in p.avail[g] && i < |p.avail[g][b]|
  }

  predicate SpareOk(p: Pool, r: Roles, g: nat, b: nat, i: nat) {
    HasSpare(p, g, b, i) ==>
      HoldsOk(p, r, p.avail[g][b][i], Spare(g, b, i), g) && p.sizes[p.avail[g][b][i]] == b
  }

  /** A role is a real one. */
  predicate RoleOk(p: Pool, r: Roles, ptr: Ptr)
    requires ptr in r
  {
    match r[ptr]
    case Held(g, key) => HasKey(p, g, key) && p.ids[g][key] == ptr
    case Spare(g, b, i) => HasSpare(p, g, b, i) && p.avail[g][b][i] == ptr
    case Scratch(g) => ptr in p.home && p.home[ptr] == g
  }

  predicate RangesApart(sizes: map<Ptr, nat>) {
    forall a, b :: a in sizes && b in sizes && a != b ==> Clear(a, sizes[a], b, sizes[b])
  }

  function SizeAt(sizes: map<Ptr, nat>, ptr: Ptr): nat { if ptr in sizes then sizes[ptr] else 0 }

  /** The bytes recorded under the keys of one device. */
  ghost function HeldBytes(ids: map<nat, Ptr>, sizes: map<Ptr, nat>): nat
    decreases |ids|
  {
    if ids == map[] then 0 else
      var k :| k in ids;
      SizeAt(sizes, ids[k]) + HeldBytes(ids - {k}, sizes)
  }

  /** Free memory and held bytes add up to the capacity. */
  ghost predicate Balanced(p: Pool, capacity: seq<int>) {
    && Sized(p, |capacity|)
    && forall g: nat :: g < |capacity| ==> p.free[g] + HeldBytes(p.ids[g], p.sizes) == capacity[g]
  }

  /** Every pointer but those in `loose` has its role. */
  ghost predicate InvBut(p: Pool, capacity: seq<int>, r: Roles, loose: set<Ptr>) {
    && r.Keys == p.sizes.Keys - loose
    && (forall g: nat, key: nat :: HeldOk(p, r, g, key))
    && (forall g: nat, b: nat, i: nat :: SpareOk(p, r, g, b, i))
    && (forall ptr :: ptr in r ==> RoleOk(p, r, ptr))
    && RangesApart(p.sizes) && Balanced(p, capacity)
  }

  ghost predicate Inv(p: Pool, capacity: seq<int>, r: Roles) {
    InvBut(p, capacity, r, {})
  }

  // ---------------------------------------------------------------- sums

  lemma {:induction false} HeldBytesDrop(ids: map<nat, Ptr>, sizes: map<Ptr, nat>, x: nat)
    requires x in ids
    ensures HeldBytes(ids, sizes) == SizeAt(sizes, ids[x]) + HeldBytes(ids - {x}, sizes)
    decreases |ids|
  {
    var k :| k in ids && HeldBytes(ids, sizes) == SizeAt(sizes, ids[k]) + HeldBytes(ids - {k}, sizes);
    if k != x {
      HeldBytesDrop(ids - {k}, sizes, x);
      HeldBytesDrop(ids - {x}, sizes, k);
      assert ids - {k} - {x} == ids - {x} - {k};
    }
  }

  lemma {:induction false} HeldBytesSame(ids: map<nat, Ptr>, a: map<Ptr, nat>, b: map<Ptr, nat>)
    requires forall k :: k in ids ==> SizeAt(a, ids[k]) == SizeAt(b, ids[k])
    ensures HeldBytes(ids, a) == HeldBytes(ids, b)
    decreases |ids|
  {
    if ids != map[] {
      var k :| k in ids;
      HeldBytesDrop(ids, a, k);
      HeldBytesDrop(ids, b, k);
      HeldBytesSame(ids - {k}, a, b);
    }
  }

  lemma HeldBytesPut(ids: map<nat, Ptr>, sizes: map<Ptr, nat>, x: nat, ptr: Ptr)
    requires x !in ids
    ensures HeldBytes(ids[x := ptr], sizes) == HeldBytes(ids, sizes) + SizeAt(sizes, ptr)
  {
    HeldBytesDrop(ids[x := ptr], sizes, x);
    assert ids[x := ptr] - {x} == ids;
  }

  /** The same pointers are scratch buffers. */
  ghost predicate SameScratch(r: Roles, k: Roles) {
    forall ptr :: (ptr in r && r[ptr].Scratch?) <==> (ptr in k && k[ptr].Scratch?)
  }

  // ---------------------------------------------------------------- what a call keeps

  lemma GoneRole(p: Pool, capacity: seq<int>, r: Roles, g: nat, ptr: Ptr)
    requires Inv(p, capacity, r) && g < |p.avail| && ptr in r
    ensures ptr in Cached(p.avail[g]) <==> r[ptr].Spare? && r[ptr].gpu == g
  {
    var c := p.avail[g];
    if ptr in Cached(c) {
      var b: nat, i: nat :| b in c && i < |c[b]| && c[b][i] == ptr;
      assert SpareOk(p, r, g, b, i);
    }
    if r[ptr].Spare? && r[ptr].gpu == g {
      assert RoleOk(p, r, ptr);
    }
  }

  /** Memory of unchanged size keeps the balance. */
  lemma BalanceKept(p: Pool, q: Pool, capacity: seq<int>)
    requires Balanced(p, capacity) && q.ids == p.ids && q.free == p.free && |q.avail| == |p.avail|
    requires forall g: nat, key: nat :: HasKey(p, g, key) ==> SizeAt(p.sizes, p.ids[g][key]) == SizeAt(q.sizes, p.ids[g][key])
    ensures Balanced(q, capacity)
  {
    forall g: nat | g < |capacity| ensures q.free[g] + HeldBytes(q.ids[g], q.sizes) == capacity[g] {
      forall k | k in p.ids[g] ensures SizeAt(p.sizes, p.ids[g][k]) == SizeAt(q.sizes, p.ids[g][k]) { assert HasKey(p, g, k); }
      HeldBytesSame(p.ids[g], p.sizes, q.sizes);
    }
  }

  /** Giving the cache of a device back to the driver. */
  lemma FlushInv(p: Pool, capacity: seq<int>, r: Roles, g: nat) returns (k: Roles)
    requires Inv(p, capacity, r) && g < |p.avail|
    ensures Inv(Flush(p, g), capacity, k) && SameScratch(r, k)
  {
    var t, gone := Flush(p, g), Cached(p.avail[g]);
    k := map q | q in r && q !in gone :: r[q];
    forall ptr | ptr in r ensures ptr in gone <==> r[ptr].Spare? && r[ptr].gpu == g {
      GoneRole(p, capacity, r, g, ptr);
    }
    forall h: nat, key: nat ensures HeldOk(t, k, h, key) { assert HeldOk(p, r, h, key); }
    forall h: nat, b: nat, i: nat ensures SpareOk(t, k, h, b, i) { assert SpareOk(p, r, h, b, i); }
    forall ptr | ptr in k ensures RoleOk(t, k, ptr) { assert RoleOk(p, r, ptr); }
    forall h: nat, key: nat | HasKey(p, h, key) ensures SizeAt(p.sizes, p.ids[h][key]) == SizeAt(t.sizes, p.ids[h][key]) {
      assert HeldOk(p, r, h, key);
    }
    BalanceKept(p, t, capacity);
  }

  /** Pointer `ptr` of the given size on device g has left its role and has no other yet. */
  ghost predicate Loose(p: Pool, capacity: seq<int>, r: Roles, ptr: Ptr, bytes: nat, g: nat) {
    && InvBut(p, capacity, r, {ptr})
    && ptr in p.sizes && p.sizes[ptr] == bytes && ptr in p.home && p.home[ptr] == g < |p.avail|
  }

  lemma GrantLoose(p: Pool, capacity: seq<int>, r: Roles, g: nat, ptr: Ptr, bytes: nat)
    requires Inv(p, capacity, r) && g < |p.avail| && FreshRange(p.sizes, ptr, bytes)
    ensures Loose(Record(p, g, ptr, bytes), capacity, r, ptr, bytes, g)
  {
    var t := Record(p, g, ptr, bytes);
    forall h: nat, key: nat ensures HeldOk(t, r, h, key) { assert HeldOk(p, r, h, key); }
    forall h: nat, b: nat, i: nat ensures SpareOk(t, r, h, b, i) { assert SpareOk(p, r, h, b, i); }
    forall q | q in r ensures RoleOk(t, r, q) { assert RoleOk(p, r, q); }
    forall h: nat, key: nat | HasKey(p, h, key) ensures SizeAt(p.sizes, p.ids[h][key]) == SizeAt(t.sizes, p.ids[h][key]) {
      assert HeldOk(p, r, h, key);
    }
    BalanceKept(p, t, capacity);
  }

  lemma ReuseLoose(p: Pool, capacity: seq<int>, r: Roles, g: nat, bytes: nat)
    requires Inv(p, capacity, r) && g < |p.avail| && Reusable(p, g, bytes)
    ensures var list := p.avail[g][bytes];
            var ptr := list[|list| - 1];
            Loose(SetList(p, g, bytes, list[..|list| - 1]), capacity, r - {ptr}, ptr, bytes, g)
  {
    var list := p.avail[g][bytes];
    var ptr := list[|list| - 1];
    var t, k := SetList(p, g, bytes, list[..|list| - 1]), r - {ptr};
    assert SpareOk(p, r, g, bytes, |list| - 1);
    forall h: nat, key: nat ensures HeldOk(t, k, h, key) { assert HeldOk(p, r, h, key); }
    forall h: nat, b: nat, i: nat ensures SpareOk(t, k, h, b, i) { assert SpareOk(p, r, h, b, i); }
    forall q | q in k ensures RoleOk(t, k, q) { assert RoleOk(p, r, q); }
    BalanceKept(p, t, capacity);
  }

  /** Whatever allocate returns has the size asked for, is on the device, and is used for nothing else. */
  lemma AllocateLoose(p: Pool, capacity: seq<int>, r: Roles, g: nat, bytes: nat, a: Answer) returns (k: Roles)
    requires Inv(p, capacity, r) && g < |p.avail| && AnswerOk(p, g, bytes, a)
    ensures Loose(Allocate(p, g, bytes, a).0, capacity, k, Allocate(p, g, bytes, a).1, bytes, g) && SameScratch(r, k)
  {
    if Reusable(p, g, bytes) {
      ReuseLoose(p, capacity, r, g, bytes);
      assert SpareOk(p, r, g, bytes, |p.avail[g][bytes]| - 1);
      k := r - {p.avail[g][bytes][|p.avail[g][bytes]| - 1]};
    } else if a.Granted? {
      GrantLoose(p, capacity, r, g, a.ptr, bytes);
      k := r;
    } else {
      k := FlushInv(p, capacity, r, g);
      GrantLoose(Flush(p, g), capacity, k, g, a.ptr, bytes);
    }
  }

  /** A loose pointer recorded under a new key. */
  lemma HoldInv(p: Pool, capacity: seq<int>, r: Roles, ptr: Ptr, bytes: nat, g: nat, key: nat)
    requires Loose(p, capacity, r, ptr, bytes, g) && key !in p.ids[g]
    ensures Inv(SetId(Credit(p, g, -(bytes as int)), g, key, ptr), capacity, r[ptr := Held(g, key)])
  {
    var t, k := SetId(Credit(p, g, -(bytes as int)), g, key, ptr), r[ptr := Held(g, key)];
    forall h: nat, x: nat ensures HeldOk(t, k, h, x) { assert HeldOk(p, r, h, x); }
    forall h: nat, b: nat, i: nat ensures SpareOk(t, k, h, b, i) { assert SpareOk(p, r, h, b, i); }
    forall q | q in k ensures RoleOk(t, k, q) { if q != ptr { assert RoleOk(p, r, q); } }
    HeldBytesPut(p.ids[g], p.sizes, key, ptr);
    forall h: nat | h < |capacity| ensures t.free[h] + HeldBytes(t.ids[h], t.sizes) == capacity[h] {
      assert p.free[h] + HeldBytes(p.ids[h], p.sizes) == capacity[h];
    }
  }

  /** A loose pointer kept as a scratch buffer. */
  lemma ScratchInv(p: Pool, capacity: seq<int>, r: Roles, ptr: Ptr, bytes: nat, g: nat)
    requires Loose(p, capacity, r, ptr, bytes, g)
    ensures Inv(p, capacity, r[ptr := Scratch(g)])
  {
    var k := r[ptr := Scratch(g)];
    forall h: nat, x: nat ensures HeldOk(p, k, h, x) { assert HeldOk(p, r, h, x); }
    forall h: nat, b: nat, i: nat ensures SpareOk(p, k, h, b, i) { assert SpareOk(p, r, h, b, i); }
    forall q | q in k ensures RoleOk(p, k, q) { if q != ptr { assert RoleOk(p, r, q); } }
  }

  /** A key given up leaves its pointer loose. */
  lemma DropLoose(p: Pool, capacity: seq<int>, r: Roles, g: nat, key: nat)
    requires Inv(p, capacity, r) && HasKey(p, g, key)
    ensures p.ids[g][key] in p.sizes
    ensures var ptr := p.ids[g][key];
            Loose(Credit(DropId(p, g, key), g, p.sizes[ptr]), capacity, r - {ptr}, ptr, p.sizes[ptr], g)
  {
    assert HeldOk(p, r, g, key);
    var ptr := p.ids[g][key];
    var t, k := Credit(DropId(p, g, key), g, p.sizes[ptr]), r - {ptr};
    forall h: nat, x: nat ensures HeldOk(t, k, h, x) { assert HeldOk(p, r, h, x); }
    forall h: nat, b: nat, i: nat ensures SpareOk(t, k, h, b, i) { assert SpareOk(p, r, h, b, i); }
    forall q | q in k ensures RoleOk(t, k, q) { assert RoleOk(p, r, q); }
    HeldBytesDrop(p.ids[g], p.sizes, key);
    forall h: nat | h < |capacity| ensures t.free[h] + HeldBytes(t.ids[h], t.sizes) == capacity[h] {
      assert p.free[h] + HeldBytes(p.ids[h], p.sizes) == capacity[h];
    }
  }

  /** A loose pointer goes to the cache of its device under its size. */
  lemma CacheInv(p: Pool, capacity: seq<int>, r: Roles, ptr: Ptr, bytes: nat, g: nat)
    requires Loose(p, capacity, r, ptr, bytes, g)
    ensures Inv(Release(p, g, ptr), capacity, r[ptr := Spare(g, bytes, |ListOf(p, g, bytes)|)])
  {
    var t, k := Release(p, g, ptr), r[ptr := Spare(g, bytes, |ListOf(p, g, bytes)|)];
    forall h: nat, x: nat ensures HeldOk(t, k, h, x) { assert HeldOk(p, r, h, x); }
    forall h: nat, b: nat, i: nat ensures SpareOk(t, k, h, b, i) { assert SpareOk(p, r, h, b, i); }
    forall q | q in k ensures RoleOk(t, k, q) { if q != ptr { assert RoleOk(p, r, q); } }
    BalanceKept(p, t, capacity);
  }

  /** AllocateMemory keeps the invariant, known key or not. */
  lemma AllocateInv(p: Pool, capacity: seq<int>, r: Roles, key: nat, size: nat, g: nat, a: Answer) returns (k: Roles)
    requires Inv(p, capacity, r) && g < |p.avail| && (key in p.ids[g] || AnswerOk(p, g, size, a))
    ensures Inv(AllocateMemory(p, key, size, g, a).0, capacity, k) && SameScratch(r, k)
  {
    if key in p.ids[g] {
      k := r;
    } else {
      var loose := AllocateLoose(p, capacity, r, g, size, a);
      var (q, ptr) := Allocate(p, g, size, a);
      HoldInv(q, capacity, loose, ptr, size, g, key);
      k := loose[ptr := Held(g, key)];
    }
  }

  /** FreeMemory keeps it if a known key comes with its own pointer and size. */
  lemma FreeInv(p: Pool, capacity: seq<int>, r: Roles, key: nat, ptr: Ptr, size: nat, g: nat) returns (k: Roles)
    requires Inv(p, capacity, r) && g < |p.avail|
    requires key in p.ids[g] ==> ptr == p.ids[g][key] && SizeAt(p.sizes, ptr) == size
    ensures Inv(FreeMemory(p, key, ptr, size, g).0, capacity, k) && SameScratch(r, k)
  {
    if key !in p.ids[g] {
      k := r;
    } else {
      DropLoose(p, capacity, r, g, key);
      assert HeldOk(p, r, g, key);
      var q := Credit(DropId(p, g, key), g, size);
      CacheInv(q, capacity, r - {ptr}, ptr, size, g);
      k := (r - {ptr})[ptr := Spare(g, size, |ListOf(q, g, size)|)];
      assert Release(q, g, ptr) == FreeMemory(p, key, ptr, size, g).0;
    }
  }

  // ---------------------------------------------------------------- exactly when a free is sound

  /** A known key comes with its own size, and with its own pointer, one that is not allocated, or
      a scratch buffer of the device. */
  predicate FreeFits(p: Pool, r: Roles, key: nat, ptr: Ptr, size: nat, g: nat) {
    HasKey(p, g, key) ==>
      && size == SizeAt(p.sizes, p.ids[g][key])
      && (ptr == p.ids[g][key] || ptr !in p.sizes || (ptr in r && r[ptr] == Scratch(g)))
  }

  lemma ScratchLoose(p: Pool, capacity: seq<int>, r: Roles, ptr: Ptr, g: nat)
    requires Inv(p, capacity, r) && ptr in r && r[ptr] == Scratch(g) && g < |p.avail|
    ensures Loose(p, capacity, r - {ptr}, ptr, p.sizes[ptr], g)
  {
    var k := r - {ptr};
    assert RoleOk(p, r, ptr);
    forall h: nat, x: nat ensures HeldOk(p, k, h, x) { assert HeldOk(p, r, h, x); }
    forall h: nat, b: nat, i: nat ensures SpareOk(p, k, h, b, i) { assert SpareOk(p, r, h, b, i); }
    forall q | q in k ensures RoleOk(p, k, q) { assert RoleOk(p, r, q); }
  }

  /** The books without the key. */
  function Forget(p: Pool, g: nat, key: nat, size: nat): Pool
    requires Sized(p, |p.avail|) && g < |p.avail|
  {
    Credit(DropId(p, g, key), g, size)
  }

  lemma FreeIsRelease(p: Pool, key: nat, ptr: Ptr, size: nat, g: nat)
    requires Sized(p, |p.avail|) && g < |p.avail| && key in p.ids[g]
    ensures FreeMemory(p, key, ptr, size, g).0 == Release(Forget(p, g, key, size), g, ptr)
  {
    assert ListOf(DropId(p, g, key), g, SizeAt(p.sizes, ptr)) == ListOf(Forget(p, g, key, size), g, SizeAt(p.sizes, ptr));
  }

  /** The memory of a forgotten key is left behind like a scratch buffer. */
  lemma ForgetInv(p: Pool, capacity: seq<int>, r: Roles, key: nat, g: nat)
    requires Inv(p, capacity, r) && HasKey(p, g, key)
    ensures Inv(Forget(p, g, key, SizeAt(p.sizes, p.ids[g][key])), capacity, r[p.ids[g][key] := Scratch(g)])
  {
    var own := p.ids[g][key];
    DropLoose(p, capacity, r, g, key);
    ScratchInv(Forget(p, g, key, p.sizes[own]), capacity, r - {own}, own, p.sizes[own], g);
    assert (r - {own})[own := Scratch(g)] == r[own := Scratch(g)];
  }

  lemma CacheScratch(p: Pool, capacity: seq<int>, r: Roles, ptr: Ptr, g: nat) returns (k: Roles)
    requires Inv(p, capacity, r) && g < |p.avail| && (ptr in r ==> r[ptr] == Scratch(g))
    ensures Inv(Release(p, g, ptr), capacity, k)
  {
    k := r;
    if ptr in r {
      var bytes := p.sizes[ptr];
      ScratchLoose(p, capacity, r, ptr, g);
      CacheInv(p, capacity, r - {ptr}, ptr, bytes, g);
      k := (r - {ptr})[ptr := Spare(g, bytes, |ListOf(p, g, bytes)|)];
    }
  }

  /** A free with a pointer that fits, though it is not the key's. */
  lemma FreeOther(p: Pool, capacity: seq<int>, r: Roles, key: nat, ptr: Ptr, size: nat, g: nat) returns (k: Roles)
    requires Inv(p, capacity, r) && HasKey(p, g, key) && ptr != p.ids[g][key] && FreeFits(p, r, key, ptr, size, g)
    ensures Inv(FreeMemory(p, key, ptr, size, g).0, capacity, k)
  {
    ForgetInv(p, capacity, r, key, g);
    FreeIsRelease(p, key, ptr, size, g);
    k := CacheScratch(Forget(p, g, key, size), capacity, r[p.ids[g][key] := Scratch(g)], ptr, g);
  }

  /** A cached pointer is at home on the device, under no key and nowhere else in a cache. */
  lemma CachedOnce(q: Pool, k: Roles, ptr: Ptr, g: nat, b: nat, last: nat)
    requires forall h: nat, x: nat :: HeldOk(q, k, h, x)
    requires forall h: nat, c: nat, i: nat :: SpareOk(q, k, h, c, i)
    requires HasSpare(q, g, b, last) && q.avail[g][b][last] == ptr
    ensures ptr in q.home && q.home[ptr] == g
    ensures forall h: nat, x: nat :: HasKey(q, h, x) ==> q.ids[h][x] != ptr
    ensures forall h: nat, c: nat, i: nat :: HasSpare(q, h, c, i) && q.avail[h][c][i] == ptr ==> h == g && c == b && i == last
  {
    assert SpareOk(q, k, g, b, last);
    forall h: nat, x: nat | HasKey(q, h, x) ensures q.ids[h][x] != ptr { assert HeldOk(q, k, h, x); }
    forall h: nat, c: nat, i: nat | HasSpare(q, h, c, i) && q.avail[h][c][i] == ptr ensures h == g && c == b && i == last {
      assert SpareOk(q, k, h, c, i);
    }
  }

  /** What a free with a pointer of ours leaves under the other keys and in the caches. */
  lemma FreeAdds(p: Pool, key: nat, ptr: Ptr, size: nat, g: nat)
    requires Sized(p, |p.avail|) && HasKey(p, g, key) && ptr in p.sizes
    ensures var q, b := FreeMemory(p, key, ptr, size, g).0, p.sizes[ptr];
            && q.home == p.home
            && HasSpare(q, g, b, |ListOf(p, g, b)|) && q.avail[g][b][|ListOf(p, g, b)|] == ptr
            && (forall h: nat, x: nat :: HasKey(p, h, x) && (h != g || x != key) ==> HasKey(q, h, x) && q.ids[h][x] == p.ids[h][x])
            && (forall h: nat, c: nat, i: nat :: HasSpare(p, h, c, i) ==> HasSpare(q, h, c, i) && q.avail[h][c][i] == p.avail[h][c][i])
  {
  }

  /** A pointer with another use cannot also be cached. */
  lemma FreeNeedsIdle(p: Pool, capacity: seq<int>, r: Roles, key: nat, ptr: Ptr, size: nat, g: nat, k: Roles)
    requires Inv(p, capacity, r) && HasKey(p, g, key) && ptr in p.sizes && ptr != p.ids[g][key]
    requires Inv(FreeMemory(p, key, ptr, size, g).0, capacity, k)
    ensures r[ptr] == Scratch(g)
  {
    var q, b := FreeMemory(p, key, ptr, size, g).0, p.sizes[ptr];
    FreeAdds(p, key, ptr, size, g);
    CachedOnce(q, k, ptr, g, b, |ListOf(p, g, b)|);
    assert RoleOk(p, r, ptr);
    match r[ptr]
    case Held(h, x) => assert HasKey(q, h, x);
    case Spare(_, _, _) =>
    case Scratch(_) =>
  }

  lemma FreeNeedsSize(p: Pool, capacity: seq<int>, r: Roles, key: nat, ptr: Ptr, size: nat, g: nat, k: Roles)
    requires Inv(p, capacity, r) && HasKey(p, g, key) && g < |p.avail|
    requires Inv(FreeMemory(p, key, ptr, size, g).0, capacity, k)
    ensures size == SizeAt(p.sizes, p.ids[g][key])
  {
    var q := FreeMemory(p, key, ptr, size, g).0;
    HeldBytesDrop(p.ids[g], p.sizes, key);
    assert p.free[g] + HeldBytes(p.ids[g], p.sizes) == capacity[g];
    assert q.free[g] + HeldBytes(q.ids[g], q.sizes) == capacity[g];
  }

  /** FreeMemory leaves memory with one role each and a balanced account exactly when the call fits. */
  lemma FreeInvIff(p: Pool, capacity: seq<int>, r: Roles, key: nat, ptr: Ptr, size: nat, g: nat)
    requires Inv(p, capacity, r) && g < |p.avail|
    ensures (exists k :: Inv(FreeMemory(p, key, ptr, size, g).0, capacity, k)) <==> FreeFits(p, r, key, ptr, size, g)
  {
    if FreeFits(p, r, key, ptr, size, g) {
      if HasKey(p, g, key) && ptr != p.ids[g][key] {
        var k := FreeOther(p, capacity, r, key, ptr, size, g);
      } else {
        var k := FreeInv(p, capacity, r, key, ptr, size, g);
      }
    } else {
      forall k | Inv(FreeMemory(p, key, ptr, size, g).0, capacity, k) ensures false {
        FreeNeedsSize(p, capacity, r, key, ptr, size, g, k);
        if ptr in p.sizes && ptr != p.ids[g][key] { FreeNeedsIdle(p, capacity, r, key, ptr, size, g, k); }
      }
    }
  }

  /** A scratch buffer keeps the invariant and nothing else becomes or stops being one. */
  lemma ScratchStep(p: Pool, capacity: seq<int>, r: Roles, g: nat, bytes: nat, a: Answer) returns (k: Roles)
    requires Inv(p, capacity, r) && g < |p.avail| && AnswerOk(p, g, bytes, a)
    ensures var (q, ptr) := Allocate(p, g, bytes, a);
            && Inv(q, capacity, k) && ptr in k && k[ptr] == Scratch(g) && q.sizes[ptr] == bytes
            && forall x :: x != ptr ==> ((x in r && r[x].Scratch?) <==> (x in k && k[x].Scratch?))
  {
    var loose := AllocateLoose(p, capacity, r, g, bytes, a);
    var (q, ptr) := Allocate(p, g, bytes, a);
    ScratchInv(q, capacity, loose, ptr, bytes, g);
    k := loose[ptr := Scratch(g)];
  }

  // ---------------------------------------------------------------- the pool object

  /** A pool with nothing allocated. */
  function Empty(capacity: seq<int>): Pool {
    Pool(map[], map[], seq(|capacity|, _ => map[]), seq(|capacity|, _ => map[]), capacity)
  }

  lemma EmptyInv(capacity: seq<int>)
    ensures Inv(Empty(capacity), capacity, map[])
  {
  }

  /** `sizes` without the pointers in `gone`. */
  function Without(sizes: map<Ptr, nat>, gone: set<Ptr>): map<Ptr, nat> {
    map q | q in sizes && q !in gone :: sizes[q]
  }

  /** The memory under a key is its own: no byte of it belongs to another key, the cache or a
      scratch buffer, whose pointers are all in `sizes`. */
  ghost predicate Private(p: Pool, g: nat, key: nat)
    requires HasKey(p, g, key)
  {
    var ptr := p.ids[g][key];
    && ptr in p.sizes && ptr in p.home && p.home[ptr] == g
    && (forall q :: q in p.sizes && q != ptr ==> Clear(ptr, p.sizes[ptr], q, p.sizes[q]))
    && (forall h: nat, k: nat :: HasKey(p, h, k) && p.ids[h][k] == ptr ==> h == g && k == key)
    && (forall h: nat, b: nat, i: nat :: HasSpare(p, h, b, i) ==> p.avail[h][b][i] != ptr)
  }

  lemma KeyIsPrivate(p: Pool, capacity: seq<int>, r: Roles, g: nat, key: nat)
    requires Inv(p, capacity, r) && HasKey(p, g, key)
    ensures Private(p, g, key)
  {
    assert HeldOk(p, r, g, key);
    forall h: nat, k: nat | HasKey(p, h, k) && p.ids[h][k] == p.ids[g][key] ensures h == g && k == key {
      assert HeldOk(p, r, h, k);
    }
    forall h: nat, b: nat, i: nat | HasSpare(p, h, b, i) ensures p.avail[h][b][i] != p.ids[g][key] {
      assert SpareOk(p, r, h, b, i);
    }
  }

  // ---------------------------------------------------------------- what a call takes and returns

  /** The caches agree but for one list. */
  ghost predicate SameButList(p: Pool, q: Pool, g: nat, bytes: nat) {
    && |q.avail| == |p.avail|
    && (forall h :: 0 <= h < |p.avail| && h != g ==> q.avail[h] == p.avail[h])
    && forall h: nat, b: nat :: h < |p.avail| && (h != g || b != bytes) ==> ListOf(q, h, b) == ListOf(p, h, b)
  }

  /** The keys and their pointers agree but for one key. */
  ghost predicate SameButKey(p: Pool, q: Pool, g: nat, key: nat) {
    && |q.ids| == |p.ids|
    && forall h: nat, k: nat :: h != g || k != key ==>
         (HasKey(q, h, k) <==> HasKey(p, h, k)) && (HasKey(p, h, k) ==> q.ids[h][k] == p.ids[h][k])
  }

  /** The pointer waits in some list of device g. */
  ghost predicate Waits(p: Pool, g: nat, ptr: Ptr) {
    exists b: nat, i: nat :: HasSpare(p, g, b, i) && p.avail[g][b][i] == ptr
  }

  /** What an allocation does to the caches and the allocation map. On a hit the last pointer of the
      list leaves it and nothing else changes. On a granted miss the caches stay and the map gains
      the new pointer. On a refused one exactly this device's cached pointers leave as well. */
  ghost predicate Took(p: Pool, q: Pool, g: nat, bytes: nat, a: Answer, ptr: Ptr)
    requires g < |p.avail|
  {
    if ListOf(p, g, bytes) != [] then
      && SameButList(p, q, g, bytes) && ListOf(p, g, bytes) == ListOf(q, g, bytes) + [ptr]
      && q.sizes == p.sizes && q.home == p.home
    else
      && ptr == a.ptr && q.home == p.home[ptr := g] && |q.avail| == |p.avail|
      && (forall h :: 0 <= h < |p.avail| && h != g ==> q.avail[h] == p.avail[h])
      && q.avail[g] == (if a.Granted? then p.avail[g] else map[])
      && ptr in q.sizes && q.sizes[ptr] == bytes
      && (forall x :: x != ptr ==> (x in q.sizes <==> x in p.sizes && (a.Granted? || !Waits(p, g, x))))
      && (forall x :: x != ptr && x in q.sizes ==> x in p.sizes && q.sizes[x] == p.sizes[x])
  }

  lemma CachedWaits(p: Pool, g: nat, x: Ptr)
    requires g < |p.avail|
    ensures x in Cached(p.avail[g]) <==> Waits(p, g, x)
  {
    var c := p.avail[g];
    if x in Cached(c) {
      var b: nat, i: nat :| b in c && i < |c[b]| && c[b][i] == x;
      assert HasSpare(p, g, b, i);
    }
  }

  /** Exactly the pointers that wait on device g are gone, from its lists and the allocation map. */
  ghost predicate Flushed(p: Pool, q: Pool, g: nat)
    requires g < |p.avail|
  {
    && |q.avail| == |p.avail| && q.avail[g] == map[]
    && (forall h :: 0 <= h < |p.avail| && h != g ==> q.avail[h] == p.avail[h])
    && (forall x :: x in q.sizes <==> x in p.sizes && !Waits(p, g, x))
    && (forall x :: x in q.sizes ==> x in p.sizes && q.sizes[x] == p.sizes[x])
    && q.ids == p.ids && q.free == p.free
  }

  lemma FlushGivesBack(p: Pool, g: nat)
    requires g < |p.avail|
    ensures Flushed(p, Flush(p, g), g)
  {
    forall x ensures x in Cached(p.avail[g]) <==> Waits(p, g, x) {
      if x >= 0 { CachedWaits(p, g, x); }
    }
  }

  lemma AllocateTakes(p: Pool, g: nat, bytes: nat, a: Answer)
    requires g < |p.avail|
    ensures Took(p, Allocate(p, g, bytes, a).0, g, bytes, a, Allocate(p, g, bytes, a).1)
  {
    if !Reusable(p, g, bytes) && !a.Granted? { FlushGivesBack(p, g); }
  }

  /** What a free does to the caches: a pointer of ours goes to the back of the list of its size. */
  ghost predicate Returned(p: Pool, q: Pool, g: nat, ptr: Ptr)
    requires g < |p.avail|
  {
    && q.sizes == p.sizes && q.home == p.home
    && if ptr in p.sizes then
         && SameButList(p, q, g, p.sizes[ptr])
         && ListOf(q, g, p.sizes[ptr]) == ListOf(p, g, p.sizes[ptr]) + [ptr]
       else q.avail == p.avail
  }

  lemma FreeReturns(p: Pool, key: nat, ptr: Ptr, size: nat, g: nat)
    requires Sized(p, |p.avail|) && g < |p.avail| && key in p.ids[g]
    ensures Returned(p, FreeMemory(p, key, ptr, size, g).0, g, ptr)
  {
  }

  /** What AllocateMemory does for a new key: memory is taken, recorded and debited. */
  ghost predicate Allocated(p: Pool, q: Pool, key: nat, size: nat, g: nat, a: Answer, ptr: Ptr)
    requires g < |p.avail| && Sized(p, |p.avail|)
  {
    && Took(p, q, g, size, a, ptr) && SameButKey(p, q, g, key) && HasKey(q, g, key) && q.ids[g][key] == ptr
    && q.free == p.free[g := p.free[g] - size]
  }

  lemma AllocateRecords(p: Pool, key: nat, size: nat, g: nat, a: Answer)
    requires Sized(p, |p.avail|) && g < |p.avail| && key !in p.ids[g]
    ensures var (q, ptr) := AllocateMemory(p, key, size, g, a); Allocated(p, q, key, size, g, a, ptr)
  {
    AllocateTakes(p, g, size, a);
    var (m, ptr) := Allocate(p, g, size, a);
    var q := AllocateMemory(p, key, size, g, a).0;
    assert m.ids == p.ids && m.free == p.free;
    assert q.avail == m.avail && q.sizes == m.sizes && q.home == m.home;
    assert Took(p, q, g, size, a, ptr) by { assert forall h: nat, b: nat :: h < |p.avail| ==> ListOf(q, h, b) == ListOf(m, h, b); }
  }

  /** What FreeMemory does for a known key: the pointer is cached, the key forgotten, the size credited. */
  ghost predicate Freed(p: Pool, q: Pool, key: nat, ptr: Ptr, size: nat, g: nat)
    requires g < |p.avail| && Sized(p, |p.avail|)
  {
    && Returned(p, q, g, ptr) && SameButKey(p, q, g, key) && !HasKey(q, g, key)
    && q.free == p.free[g := p.free[g] + size]
  }

  lemma FreeForgets(p: Pool, key: nat, ptr: Ptr, size: nat, g: nat)
    requires Sized(p, |p.avail|) && g < |p.avail| && key in p.ids[g]
    ensures Freed(p, FreeMemory(p, key, ptr, size, g).0, key, ptr, size, g)
  {
    FreeReturns(p, key, ptr, size, g);
  }

  lemma SameLists(p: Pool, q: Pool, t: Pool, g: nat, bytes: nat)
    requires g < |p.avail| && SameButList(p, q, g, bytes) && SameButList(q, t, g, bytes) && ListOf(t, g, bytes) == ListOf(p, g, bytes)
    ensures forall h: nat, b: nat :: h < |p.avail| ==> h < |t.avail| && ListOf(t, h, b) == ListOf(p, h, b)
  {
    forall h: nat, b: nat | h < |p.avail| ensures ListOf(t, h, b) == ListOf(p, h, b) {
      if h != g || b != bytes { assert ListOf(t, h, b) == ListOf(q, h, b) == ListOf(p, h, b); }
    }
  }

  lemma FreedComesBack(p: Pool, key: nat, other: nat, ptr: Ptr, g: nat, a: Answer)
    requires Sized(p, |p.avail|) && g < |p.avail| && ptr in p.sizes
    requires HasKey(p, g, key) && p.ids[g][key] == ptr && (other == key || !HasKey(p, g, other))
    ensures var q := FreeMemory(p, key, ptr, p.sizes[ptr], g).0;
            var (t, got) := AllocateMemory(q, other, p.sizes[ptr], g, a);
            && got == ptr && t.sizes == p.sizes && t.free == p.free
            && (forall h: nat, b: nat :: h < |p.avail| ==> h < |t.avail| && ListOf(t, h, b) == ListOf(p, h, b))
            && (other == key ==> t.ids == p.ids)
  {
    var bytes := p.sizes[ptr];
    var q := FreeMemory(p, key, ptr, bytes, g).0;
    FreeForgets(p, key, ptr, bytes, g);
    AllocateRecords(q, other, bytes, g, a);
    var (t, got) := AllocateMemory(q, other, bytes, g, a);
    assert got == ptr;
    SameLists(p, q, t, g, bytes);
    if other == key { assert (p.ids[g] - {key})[key := ptr] == p.ids[g]; }
  }

  /** The memory a key gave up is what the next allocation of its size on the device gets, under the
      same key or a new one; under the same key the books and the caches are as before. */
  lemma FreedIsReused(p: Pool, capacity: seq<int>, r: Roles, key: nat, other: nat, g: nat, a: Answer)
    requires Inv(p, capacity, r) && HasKey(p, g, key) && (other == key || !HasKey(p, g, other))
    ensures p.ids[g][key] in p.sizes
    ensures var ptr := p.ids[g][key];
            var q := FreeMemory(p, key, ptr, p.sizes[ptr], g).0;
            var (t, got) := AllocateMemory(q, other, p.sizes[ptr], g, a);
            && got == ptr && t.sizes == p.sizes && t.free == p.free
            && (forall h: nat, b: nat :: h < |p.avail| ==> h < |t.avail| && ListOf(t, h, b) == ListOf(p, h, b))
            && (other == key ==> t.ids == p.ids)
  {
    assert HeldOk(p, r, g, key);
    FreedComesBack(p, key, other, p.ids[g][key], g, a);
  }

  class DeviceMemoryPool {
    var sizes: map<Ptr, nat>
    var home: map<Ptr, nat>
    var avail: seq<Cache>
    var ids: seq<map<nat, Ptr>>
    var free: seq<int>
    ghost var roles: Roles
    ghost const capacity: seq<int>

    ghost function Snapshot(): Pool
      reads this
    {
      Pool(sizes, home, avail, ids, free)
    }

    ghost predicate Valid()
      reads this
    {
      Inv(Snapshot(), capacity, roles)
    }

    /** Nothing allocated, everything free. */
    constructor (capacity: seq<int>)
      ensures Valid() && this.capacity == capacity && Snapshot() == Empty(capacity)
    {
      sizes, home := map[], map[];
      avail, ids := seq(|capacity|, _ => map[]), seq(|capacity|, _ => map[]);
      free := capacity;
      roles, this.capacity := map[], capacity;
      EmptyInv(capacity);
    }

    /** free_cached: the lists of the device in any order, each pointer in turn. */
    method FreeCached(g: nat)
      requires g < |avail|
      modifies this
      ensures Snapshot() == Flush(old(Snapshot()), g) && roles == old(roles)
      ensures Flushed(old(Snapshot()), Snapshot(), g)
    {
      FlushGivesBack(Snapshot(), g);
      var cache := avail[g];
      var todo := cache.Keys;
      ghost var gone: set<Ptr> := {};
      while todo != {}
        invariant todo <= cache.Keys
        invariant gone == set b, i | b in cache && b !in todo && 0 <= i < |cache[b]| :: cache[b][i]
        invariant sizes == Without(old(sizes), gone)
        invariant home == old(home) && avail == old(avail) && ids == old(ids) && free == old(free) && roles == old(roles)
      {
        var b :| b in todo;
        FreeList(cache[b]);
        gone := gone + set q | q in cache[b];
        todo := todo - {b};
      }
      assert gone == Cached(cache);
      avail := avail[g := map[]];
    }

    method FreeList(list: seq<Ptr>)
      modifies this`sizes
      ensures sizes == Without(old(sizes), set q | q in list)
    {
      for i := 0 to |list|
        invariant sizes == Without(old(sizes), set q | q in list[..i])
      {
        sizes := sizes - {list[i]};
        assert list[..i + 1] == list[..i] + [list[i]];
      }
      assert list[..|list|] == list;
    }

    /** allocate and allocate_and_cache. */
    method TakePointer(g: nat, bytes: nat, answer: Answer) returns (ptr: Ptr)
      requires Sized(Snapshot(), |avail|) && g < |avail|
      modifies this
      ensures (Snapshot(), ptr) == Allocate(old(Snapshot()), g, bytes, answer) && roles == old(roles)
      ensures Took(old(Snapshot()), Snapshot(), g, bytes, answer, ptr) && ids == old(ids) && free == old(free)
    {
      AllocateTakes(Snapshot(), g, bytes, answer);
      if bytes in avail[g] && |avail[g][bytes]| > 0 {
        var list := avail[g][bytes];
        ptr := list[|list| - 1];
        var cache: Cache := avail[g][bytes := list[..|list| - 1]];
        avail := avail[g := cache];
        return;
      }
      if answer.AfterFlush? {
        FreeCached(g);
      }
      ptr := answer.ptr;
      sizes := sizes[ptr := bytes];
      home := home[ptr := g];
    }

    /** The assignments of AllocateMemory. */
    method Record(key: nat, size: nat, g: nat, answer: Answer) returns (ptr: Ptr)
      requires Sized(Snapshot(), |avail|) && g < |avail|
      modifies this
      ensures (Snapshot(), ptr) == AllocateMemory(old(Snapshot()), key, size, g, answer) && roles == old(roles)
    {
      if key in ids[g] {
        return ids[g][key];
      }
      ptr := TakePointer(g, size, answer);
      free := free[g := free[g] - size];
      var known: map<nat, Ptr> := ids[g][key := ptr];
      ids := ids[g := known];
    }

    /** AllocateMemory: memory of the asked size that nothing else uses; a key already known gets
        its pointer back and nothing changes. */
    method AllocateFor(key: nat, size: nat, g: nat, answer: Answer) returns (ptr: Ptr)
      requires Valid() && g < |avail| && (key in ids[g] || AnswerOk(Snapshot(), g, size, answer))
      modifies this
      ensures Valid() && HasKey(Snapshot(), g, key) && ids[g][key] == ptr && Private(Snapshot(), g, key)
      ensures old(HasKey(Snapshot(), g, key)) ==> Snapshot() == old(Snapshot())
      ensures !old(HasKey(Snapshot(), g, key)) ==>
                sizes[ptr] == size && Allocated(old(Snapshot()), Snapshot(), key, size, g, answer, ptr)
    {
      ghost var before := Snapshot();
      ghost var k := AllocateInv(before, capacity, roles, key, size, g, answer);
      if key !in ids[g] {
        AllocateRecords(before, key, size, g, answer);
        ghost var _ := AllocateLoose(before, capacity, roles, g, size, answer);
      }
      ptr := Record(key, size, g, answer);
      roles := k;
      KeyIsPrivate(Snapshot(), capacity, roles, g, key);
    }

    /** The assignments of FreeMemory. */
    method GiveUp(key: nat, ptr: Ptr, size: nat, g: nat) returns (status: int)
      requires Sized(Snapshot(), |avail|) && g < |avail|
      modifies this
      ensures (Snapshot(), status) == FreeMemory(old(Snapshot()), key, ptr, size, g) && roles == old(roles)
    {
      if key !in ids[g] {
        return -1;
      }
      ids := ids[g := ids[g] - {key}];
      if ptr in sizes {
        var bytes := sizes[ptr];
        var list := if bytes in avail[g] then avail[g][bytes] else [];
        var cache: Cache := avail[g][bytes := list + [ptr]];
        avail := avail[g := cache];
      }
      free := free[g := free[g] + size];
      status := 0;
    }

    /** FreeMemory: a known key is given up, the size credited and the pointer cached; an unknown key
        reports -1 and changes nothing. The pool does not check the pointer and the size it is given:
        its memory stays in order exactly if they fit. */
    method FreeFor(key: nat, ptr: Ptr, size: nat, g: nat) returns (status: int)
      requires Valid() && g < |avail|
      modifies this
      ensures Sized(Snapshot(), old(|avail|)) && !HasKey(Snapshot(), g, key)
      ensures if old(HasKey(Snapshot(), g, key)) then status == 0 else status == -1 && Snapshot() == old(Snapshot())
      ensures status == 0 ==> Freed(old(Snapshot()), Snapshot(), key, ptr, size, g)
      ensures if old(FreeFits(Snapshot(), roles, key, ptr, size, g)) then Valid() else forall k :: !Inv(Snapshot(), capacity, k)
    {
      ghost var before := Snapshot();
      FreeInvIff(before, capacity, roles, key, ptr, size, g);
      if key in ids[g] { FreeForgets(before, key, ptr, size, g); }
      status := GiveUp(key, ptr, size, g);
      if k :| Inv(Snapshot(), capacity, k) {
        roles := k;
      }
    }

    /** A scratch buffer taken straight from the allocator: the pool's books do not change. */
    method TakeScratch(g: nat, bytes: nat, answer: Answer) returns (ptr: Ptr)
      requires Valid() && g < |avail| && AnswerOk(Snapshot(), g, bytes, answer)
      modifies this
      ensures Valid() && ptr in roles && roles[ptr] == Scratch(g) && ptr in sizes && sizes[ptr] == bytes
      ensures ids == old(ids) && free == old(free) && Took(old(Snapshot()), Snapshot(), g, bytes, answer, ptr)
    {
      ghost var k := ScratchStep(Snapshot(), capacity, roles, g, bytes, answer);
      ptr := TakePointer(g, bytes, answer);
      roles := k;
    }
  }
}
