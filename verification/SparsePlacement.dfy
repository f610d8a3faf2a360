/** Loading sparse nodes partition by partition and dealing them to the GPUs in turn. */
module SparsePlacement {
  import opened Basics

  /** The nodes among the first n whose first tensor lies in partition f, in order. */
  function Group(files: seq<nat>, n: nat, f: nat): seq<nat>
    requires n <= |files|
  {
    if n == 0 then [] else Group(files, n - 1, f) + if files[n - 1] == f then [n - 1] else []
  }

  lemma {:induction false} GroupIs(files: seq<nat>, n: nat, f: nat)
    requires n <= |files|
    ensures forall i :: i in Group(files, n, f) <==> 0 <= i < n && files[i] == f
    ensures Ascending(Group(files, n, f))
  {
    if n > 0 {
      GroupIs(files, n - 1, f);
      var earlier := Group(files, n - 1, f);
      assert forall k :: 0 <= k < |earlier| ==> earlier[k] in earlier;
    }
  }

  predicate Ascending(s: seq<nat>) {
    forall a, b :: 0 <= a < b < |s| ==> s[a] < s[b]
  }

  /** A partition number put in its place among the ones known. */
  function Insert(ids: seq<nat>, f: nat): (r: seq<nat>)
    requires Ascending(ids)
    ensures Ascending(r) && forall x :: x in r <==> x == f || x in ids
  {
    if ids == [] then [f]
    else if f < ids[0] then [f] + ids
    else if f == ids[0] then ids
    else
      var rest := Insert(ids[1..], f);
      assert forall k :: 0 <= k < |rest| ==> rest[k] in rest;
      [ids[0]] + rest
  }

  /** The order in which the nodes are loaded. */
  function LoadOrder(files: seq<nat>, ids: seq<nat>): seq<nat> {
    if ids == [] then [] else LoadOrder(files, ids[..|ids| - 1]) + Group(files, |files|, ids[|ids| - 1])
  }

  /** Earlier partitions first, and within one partition earlier nodes first. */
  predicate Before(files: seq<nat>, i: nat, j: nat)
    requires i < |files| && j < |files|
  {
    files[i] < files[j] || (files[i] == files[j] && i < j)
  }

  ghost predicate OrderOk(files: seq<nat>, order: seq<nat>) {
    && (forall k :: 0 <= k < |order| ==> order[k] < |files|)
    && (forall a, b :: 0 <= a < b < |order| ==> order[a] < |files| && order[b] < |files| && Before(files, order[a], order[b]))
  }

  lemma {:induction false} LoadOrderIs(files: seq<nat>, ids: seq<nat>)
    requires Ascending(ids)
    ensures OrderOk(files, LoadOrder(files, ids))
    ensures forall i :: i in LoadOrder(files, ids) <==> 0 <= i < |files| && files[i] in ids
    decreases |ids|
  {
    if ids != [] {
      var init, last := ids[..|ids| - 1], ids[|ids| - 1];
      LoadOrderIs(files, init);
      GroupIs(files, |files|, last);
      assert ids == init + [last];
      var first, group := LoadOrder(files, init), Group(files, |files|, last);
      forall a, b | 0 <= a < b < |first + group|
        ensures (first + group)[a] < |files| && (first + group)[b] < |files|
        ensures Before(files, (first + group)[a], (first + group)[b])
      {
        if a >= |first| {
          assert group[a - |first|] in group && group[b - |first|] in group;
        } else if b >= |first| {
          assert first[a] in first && group[b - |first|] in group;
        }
      }
      assert forall k :: 0 <= k < |group| ==> group[k] in group;
    }
  }

  // ---------------------------------------------------------------- dealing in turn

  /** How many places after the starting GPU a GPU comes. */
  function Turn(start: nat, gpus: nat, g: nat): nat
    requires start < gpus && g < gpus
  {
    if g >= start then g - start else g + gpus - start
  }

  /** The nodes dealt to a GPU. */
  function OnGpu(device: map<nat, nat>, g: nat): set<nat> {
    set i | i in device && device[i] == g
  }

  /** After `rounds` full rounds and `extra` more nodes, the GPUs whose turn came have one more. */
  ghost predicate DealtTo(device: map<nat, nat>, start: nat, gpus: nat, rounds: nat, extra: nat, g: nat)
    requires start < gpus && g < gpus
  {
    |OnGpu(device, g)| == rounds + if Turn(start, gpus, g) < extra then 1 else 0
  }

  /** `next` is the GPU whose turn it is. */
  ghost predicate Dealt(device: map<nat, nat>, start: nat, gpus: nat, next: nat, rounds: nat, extra: nat) {
    && start < gpus && next < gpus && extra < gpus && Turn(start, gpus, next) == extra
    && (forall i :: i in device ==> device[i] < gpus)
    && forall g: nat :: g < gpus ==> DealtTo(device, start, gpus, rounds, extra, g)
  }

  lemma OnGpuGrows(device: map<nat, nat>, i: nat, t: nat, g: nat)
    requires i !in device
    ensures |OnGpu(device[i := t], g)| == |OnGpu(device, g)| + if g == t then 1 else 0
  {
    var now := device[i := t];
    if g == t {
      assert OnGpu(now, g) == OnGpu(device, g) + {i};
    } else {
      assert OnGpu(now, g) == OnGpu(device, g);
    }
  }

  lemma DealOne(device: map<nat, nat>, start: nat, gpus: nat, next: nat, rounds: nat, extra: nat, i: nat)
    requires Dealt(device, start, gpus, next, rounds, extra) && i !in device
    ensures var full := extra + 1 == gpus;
            Dealt(device[i := next], start, gpus, (next + 1) % gpus, if full then rounds + 1 else rounds, if full then 0 else extra + 1)
  {
    var full := extra + 1 == gpus;
    var now, r, e := device[i := next], if full then rounds + 1 else rounds, if full then 0 else extra + 1;
    forall g: nat | g < gpus ensures DealtTo(now, start, gpus, r, e, g) {
      assert DealtTo(device, start, gpus, rounds, extra, g);
      OnGpuGrows(device, i, next, g);
    }
    NextTurn(start, gpus, next);
  }

  lemma NextTurn(start: nat, gpus: nat, next: nat)
    requires start < gpus && next < gpus
    ensures (next + 1) % gpus == if next + 1 == gpus then 0 else next + 1
    ensures Turn(start, gpus, (next + 1) % gpus) ==
            if Turn(start, gpus, next) + 1 == gpus then 0 else Turn(start, gpus, next) + 1
  {
    if next + 1 < gpus { assert (next + 1) % gpus == next + 1; }
  }

  /** Round-robin dealing leaves every two GPUs within one node of each other. */
  lemma Balanced(device: map<nat, nat>, start: nat, gpus: nat, next: nat, rounds: nat, extra: nat, g: nat, h: nat)
    requires Dealt(device, start, gpus, next, rounds, extra) && g < gpus && h < gpus
    ensures |OnGpu(device, g)| <= |OnGpu(device, h)| + 1
  {
    assert DealtTo(device, start, gpus, rounds, extra, g) && DealtTo(device, start, gpus, rounds, extra, h);
  }

  // ---------------------------------------------------------------- whose turn it is

  /** The k-th node dealt goes to the k-th GPU after `start`, in a circle. */
  ghost predicate InTurn(device: map<nat, nat>, order: seq<nat>, start: nat, gpus: nat) {
    && gpus > 0 && (forall i :: i in device <==> i in order)
    && forall k :: 0 <= k < |order| ==> order[k] in device && device[order[k]] == (start + k) % gpus
  }

  lemma Quotient(a: nat, n: nat, q: nat, r: nat)
    requires a == n * q + r && r < n
    ensures a % n == r
  {
    var p, s := a / n, a % n;
    assert a == n * p + s;
    if p < q { MulLess(p, q, n); } else if q < p { MulLess(q, p, n); }
  }

  lemma NextPlace(a: nat, n: nat)
    requires n > 0
    ensures (a + 1) % n == (a % n + 1) % n == if a % n + 1 == n then 0 else a % n + 1
  {
    var q, r := a / n, a % n;
    assert a == n * q + r;
    if r + 1 < n {
      Quotient(a + 1, n, q, r + 1);
      Quotient(r + 1, n, 0, r + 1);
    } else {
      assert n * (q + 1) == n * q + n;
      Quotient(a + 1, n, q + 1, 0);
    }
  }

  lemma SmallPlace(a: nat, n: nat)
    requires a < n
    ensures a % n == a
  {
    Quotient(a, n, 0, a);
  }

  /** And `next` is the GPU whose turn it is. */
  ghost predicate Turned(device: map<nat, nat>, order: seq<nat>, start: nat, gpus: nat, next: nat) {
    InTurn(device, order, start, gpus) && next == (start + |order|) % gpus
  }

  lemma NothingDealt(start: nat, gpus: nat)
    requires start < gpus
    ensures Turned(map[], [], start, gpus, start)
  {
    SmallPlace(start, gpus);
  }

  /** One more node, to the GPU whose turn it is. */
  lemma TurnSnoc(device: map<nat, nat>, order: seq<nat>, start: nat, gpus: nat, i: nat)
    requires InTurn(device, order, start, gpus) && i !in device
    ensures InTurn(device[i := (start + |order|) % gpus], order + [i], start, gpus)
  {
    var now := device[i := (start + |order|) % gpus];
    forall k | 0 <= k < |order + [i]| ensures (order + [i])[k] in now && now[(order + [i])[k]] == (start + k) % gpus {
      if k < |order| { assert order[k] in device; }
    }
  }

  lemma TurnPrefix(device: map<nat, nat>, order: seq<nat>, start: nat, gpus: nat, last: nat)
    requires InTurn(device, order + [last], start, gpus) && last !in order
    ensures InTurn(device - {last}, order, start, gpus) && last in device && device[last] == (start + |order|) % gpus
    ensures device == (device - {last})[last := device[last]]
  {
    var all, before := order + [last], device - {last};
    assert all[|order|] == last;
    forall k | 0 <= k < |order| ensures order[k] in before && before[order[k]] == (start + k) % gpus {
      assert all[k] == order[k];
    }
    forall i ensures i in before <==> i in order { assert i in all <==> i in order || i == last; }
  }

  lemma NobodyDealt(device: map<nat, nat>, start: nat, gpus: nat)
    requires device == map[] && start < gpus
    ensures Dealt(device, start, gpus, start % gpus, 0, 0)
  {
    SmallPlace(start, gpus);
    assert forall g: nat :: g < gpus ==> OnGpu(device, g) == {};
  }

  lemma DealNext(before: map<nat, nat>, device: map<nat, nat>, start: nat, gpus: nat, n: nat, r: nat, e: nat, last: nat)
    returns (rounds: nat, extra: nat)
    requires gpus > 0 && last !in before && device == before[last := (start + n) % gpus]
    requires Dealt(before, start, gpus, (start + n) % gpus, r, e)
    ensures Dealt(device, start, gpus, (start + n + 1) % gpus, rounds, extra)
  {
    DealOne(before, start, gpus, (start + n) % gpus, r, e, last);
    NextPlace(start + n, gpus);
    var full := e + 1 == gpus;
    rounds, extra := if full then r + 1 else r, if full then 0 else e + 1;
  }

  /** Dealing in turn gives the counts of so many full rounds and some more. */
  lemma {:induction false} TurnsAreDealt(device: map<nat, nat>, order: seq<nat>, start: nat, gpus: nat) returns (rounds: nat, extra: nat)
    requires InTurn(device, order, start, gpus) && NoRepeat(order) && start < gpus
    ensures Dealt(device, start, gpus, (start + |order|) % gpus, rounds, extra)
    decreases |order|
  {
    if order == [] {
      rounds, extra := 0, 0;
      NobodyDealt(device, start, gpus);
    } else {
      var init, last := order[..|order| - 1], order[|order| - 1];
      assert order == init + [last] && last !in init;
      TurnPrefix(device, init, start, gpus, last);
      var r, e := TurnsAreDealt(device - {last}, init, start, gpus);
      rounds, extra := DealNext(device - {last}, device, start, gpus, |init|, r, e, last);
    }
  }

  /** So any two GPUs are within one node of each other. */
  lemma TurnsBalance(device: map<nat, nat>, order: seq<nat>, start: nat, gpus: nat, g: nat, h: nat)
    requires InTurn(device, order, start, gpus) && NoRepeat(order) && start < gpus && g < gpus && h < gpus
    ensures |OnGpu(device, g)| <= |OnGpu(device, h)| + 1
  {
    var rounds, extra := TurnsAreDealt(device, order, start, gpus);
    Balanced(device, start, gpus, (start + |order|) % gpus, rounds, extra, g, h);
  }

  // ---------------------------------------------------------------- the loader's loops

  ghost predicate GroupsOk(files: seq<nat>, n: nat, groups: map<nat, seq<nat>>, ids: seq<nat>)
    requires n <= |files|
  {
    && Ascending(ids)
    && (forall f :: f in ids <==> f in groups)
    && (forall i :: 0 <= i < n ==> files[i] in groups)
    && GroupsAre(files, n, groups)
  }

  /** The map entry of a partition, created empty on first use. */
  function Known(groups: map<nat, seq<nat>>, f: nat): seq<nat> {
    if f in groups then groups[f] else []
  }

  /** Every group is what it should be after n nodes. */
  ghost predicate GroupsAre(files: seq<nat>, n: nat, groups: map<nat, seq<nat>>)
    requires n <= |files|
  {
    forall f :: f in groups ==> groups[f] == Group(files, n, f)
  }

  lemma GroupsGrow(files: seq<nat>, n: nat, groups: map<nat, seq<nat>>)
    requires n < |files| && GroupsAre(files, n, groups) && forall i :: 0 <= i < n ==> files[i] in groups
    ensures GroupsAre(files, n + 1, groups[files[n] := Known(groups, files[n]) + [n]])
  {
    var f := files[n];
    var now := groups[f := Known(groups, f) + [n]];
    forall h | h in now ensures now[h] == Group(files, n + 1, h) {
      if h in groups { assert groups[h] == Group(files, n, h); } else { NoGroup(files, n, h); }
    }
  }

  lemma GroupNext(files: seq<nat>, n: nat, groups: map<nat, seq<nat>>, ids: seq<nat>)
    requires n < |files| && GroupsOk(files, n, groups, ids)
    ensures var f := files[n]; GroupsOk(files, n + 1, groups[f := Known(groups, f) + [n]], Insert(ids, f))
  {
    var f := files[n];
    GroupsGrow(files, n, groups);
    SameKeys(groups, ids, f, groups[f := Known(groups, f) + [n]]);
  }

  lemma SameKeys(groups: map<nat, seq<nat>>, ids: seq<nat>, f: nat, now: map<nat, seq<nat>>)
    requires Ascending(ids) && (forall h :: h in ids <==> h in groups) && now.Keys == groups.Keys + {f}
    ensures Ascending(Insert(ids, f)) && forall h :: h in Insert(ids, f) <==> h in now
  {
  }

  lemma {:induction false} NoGroup(files: seq<nat>, n: nat, f: nat)
    requires n <= |files| && forall i :: 0 <= i < n ==> files[i] != f
    ensures Group(files, n, f) == []
  {
    if n > 0 { NoGroup(files, n - 1, f); }
  }

  lemma NoGroups(files: seq<nat>)
    ensures GroupsOk(files, 0, map[], [])
  {
  }

  method AddNode(files: seq<nat>, i: nat, before: map<nat, seq<nat>>, known: seq<nat>) returns (groups: map<nat, seq<nat>>, ids: seq<nat>)
    requires i < |files| && GroupsOk(files, i, before, known)
    ensures GroupsOk(files, i + 1, groups, ids)
  {
    GroupNext(files, i, before, known);
    var f := files[i];
    ids := Insert(known, f);
    groups := before[f := Known(before, f) + [i]];
  }

  /** nodes_by_partition and the sorted partition ids. */
  method GroupByPartition(files: seq<nat>) returns (groups: map<nat, seq<nat>>, ids: seq<nat>)
    ensures GroupsOk(files, |files|, groups, ids)
  {
    groups, ids := map[], [];
    NoGroups(files);
    for i := 0 to |files|
      invariant GroupsOk(files, i, groups, ids)
    {
      groups, ids := AddNode(files, i, groups, ids);
    }
  }

  /** Deals the nodes of one partition. */
  method DealGroup(group: seq<nat>, gpus: nat, ghost start: nat, ghost dealt: seq<nat>, before: map<nat, nat>, turn: nat)
    returns (device: map<nat, nat>, next: nat)
    requires Turned(before, dealt, start, gpus, turn)
    requires NoRepeat(group) && forall i :: i in group ==> i !in dealt
    ensures Turned(device, dealt + group, start, gpus, next)
  {
    device, next := before, turn;
    assert dealt + group[..0] == dealt;
    for k := 0 to |group|
      invariant InTurn(device, dealt + group[..k], start, gpus) && next == (start + |dealt| + k) % gpus
    {
      assert dealt + group[..k + 1] == dealt + group[..k] + [group[k]];
      TurnSnoc(device, dealt + group[..k], start, gpus, group[k]);
      NextPlace(start + |dealt| + k, gpus);
      device := device[group[k] := next];
      next := (next + 1) % gpus;
    }
    assert group[..|group|] == group;
  }

  /** The parts of a load order are disjoint and without repeats. */
  lemma OrderParts(files: seq<nat>, first: seq<nat>, group: seq<nat>)
    requires OrderOk(files, first + group)
    ensures NoRepeat(group) && forall i :: i in group ==> i !in first
  {
    var all := first + group;
    forall a, b | 0 <= a < b < |group| ensures group[a] != group[b] {
      assert all[|first| + a] == group[a] && all[|first| + b] == group[b];
      assert Before(files, all[|first| + a], all[|first| + b]);
    }
    forall a, b | 0 <= a < |first| && 0 <= b < |group| ensures first[a] != group[b] {
      assert all[a] == first[a] && all[|first| + b] == group[b];
      assert Before(files, all[a], all[|first| + b]);
    }
  }

  /** The next partition adds its group to the load order, all of it new. */
  lemma NextPart(files: seq<nat>, ids: seq<nat>, p: nat)
    requires Ascending(ids) && p < |ids|
    ensures var done, group := LoadOrder(files, ids[..p]), Group(files, |files|, ids[p]);
            && LoadOrder(files, ids[..p + 1]) == done + group
            && NoRepeat(group) && forall i :: i in group ==> i !in done
  {
    assert ids[..p + 1][..p] == ids[..p];
    LoadOrderIs(files, ids[..p + 1]);
    OrderParts(files, LoadOrder(files, ids[..p]), Group(files, |files|, ids[p]));
  }

  lemma AllLoaded(files: seq<nat>, groups: map<nat, seq<nat>>, ids: seq<nat>)
    requires GroupsOk(files, |files|, groups, ids)
    ensures OrderOk(files, LoadOrder(files, ids)) && forall i :: i in LoadOrder(files, ids) <==> 0 <= i < |files|
  {
    LoadOrderIs(files, ids);
  }

  lemma GroupOf(files: seq<nat>, groups: map<nat, seq<nat>>, ids: seq<nat>, p: nat)
    requires GroupsOk(files, |files|, groups, ids) && p < |ids|
    ensures ids[p] in groups && groups[ids[p]] == Group(files, |files|, ids[p])
  {
  }

  lemma OrderHasNoRepeat(files: seq<nat>, order: seq<nat>)
    requires OrderOk(files, order)
    ensures NoRepeat(order)
  {
    forall a, b | 0 <= a < b < |order| ensures order[a] != order[b] { assert Before(files, order[a], order[b]); }
  }

  /** Loads every sparse node once, partition by partition, and deals them to the GPUs from `start` on. */
  method PlaceSparse(files: seq<nat>, gpus: nat, start: nat) returns (loaded: seq<nat>, device: map<nat, nat>, next: nat)
    requires start < gpus
    ensures OrderOk(files, loaded) && forall i :: i in loaded <==> 0 <= i < |files|
    ensures forall i :: i in device <==> 0 <= i < |files|
    ensures forall k :: 0 <= k < |loaded| ==> loaded[k] in device && device[loaded[k]] == (start + k) % gpus
    ensures next == (start + |loaded|) % gpus
    ensures forall g: nat, h: nat :: g < gpus && h < gpus ==> |OnGpu(device, g)| <= |OnGpu(device, h)| + 1
  {
    var groups, ids := GroupByPartition(files);
    loaded, device, next := DealAll(files, groups, ids, gpus, start);
    AllLoaded(files, groups, ids);
    OrderHasNoRepeat(files, loaded);
    forall g: nat, h: nat | g < gpus && h < gpus ensures |OnGpu(device, g)| <= |OnGpu(device, h)| + 1 {
      TurnsBalance(device, loaded, start, gpus, g, h);
    }
  }

  /** The partitions in turn. */
  method DealAll(files: seq<nat>, groups: map<nat, seq<nat>>, ids: seq<nat>, gpus: nat, start: nat)
    returns (loaded: seq<nat>, device: map<nat, nat>, next: nat)
    requires start < gpus && GroupsOk(files, |files|, groups, ids)
    ensures loaded == LoadOrder(files, ids)
    ensures Turned(device, loaded, start, gpus, next)
  {
    loaded, device, next := [], map[], start;
    NothingDealt(start, gpus);
    for p := 0 to |ids|
      invariant loaded == LoadOrder(files, ids[..p])
      invariant Turned(device, loaded, start, gpus, next)
    {
      NextPart(files, ids, p);
      GroupOf(files, groups, ids, p);
      device, next := DealGroup(groups[ids[p]], gpus, start, loaded, device, next);
      loaded := loaded + groups[ids[p]];
    }
    assert ids[..|ids|] == ids;
  }
}
