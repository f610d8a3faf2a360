/** The binary form of the tensor index. */
module IndexCodec {
  import opened Bytes
  import opened Basics

  type u32 = x: int | 0 <= x < 0x1_0000_0000
  type u64 = x: int | 0 <= x < 0x1_0000_0000_0000_0000
  type i64 = x: int | -0x8000_0000_0000_0000 <= x < 0x8000_0000_0000_0000
  type i8 = x: int | -128 <= x < 128

  /** A vector's length is a non-negative 64-bit integer. */
  type Shape = s: seq<i64> | |s| < 0x8000_0000_0000_0000

  datatype Options = Options(pinned: bool, grad: bool, dtype: i8, deviceIndex: i8, deviceType: i8, layout: i8)

  /** The serialized fields of TensorStorageMeta. */
  datatype Meta = Meta(file: u32, offset: i64, size: u64, shape: Shape, options: Options)

  /** A value read off the front of a stream, or a stream that ended or held no valid value. */
  datatype Parsed<+T> = Failed | Got(value: T, rest: seq<byte>)

  // ---------------------------------------------------------------- little-endian integers

  function Pow256(k: nat): (p: nat)
    ensures p > 0
  {
    if k == 0 then 1 else 256 * Pow256(k - 1)
  }

  lemma Widths()
    ensures Pow256(1) == 0x100 && Pow256(4) == 0x1_0000_0000 && Pow256(8) == 0x1_0000_0000_0000_0000
  {
    assert Pow256(2) == 0x1_0000;
    assert Pow256(3) == 0x100_0000;
    assert Pow256(4) == 0x1_0000_0000;
    assert Pow256(5) == 0x100_0000_0000;
    assert Pow256(6) == 0x1_0000_0000_0000;
    assert Pow256(7) == 0x100_0000_0000_0000;
  }

  function Put(n: nat, k: nat): (s: seq<byte>)
    ensures |s| == k
  {
    if k == 0 then [] else [(n % 256) as byte] + Put(n / 256, k - 1)
  }

  function Value(s: seq<byte>): (n: nat)
    ensures n < Pow256(|s|)
  {
    if s == [] then 0 else s[0] as nat + 256 * Value(s[1..])
  }

  lemma {:induction false} ValueOfPut(n: nat, k: nat)
    requires n < Pow256(k)
    ensures Value(Put(n, k)) == n
  {
    if k > 0 {
      ValueOfPut(n / 256, k - 1);
      assert Put(n, k)[1..] == Put(n / 256, k - 1);
    }
  }

  function Take(s: seq<byte>, k: nat): Parsed<nat> {
    if |s| < k then Failed else Got(Value(s[..k]), s[k..])
  }

  lemma TakePut(n: nat, k: nat, rest: seq<byte>)
    requires n < Pow256(k)
    ensures Take(Put(n, k) + rest, k) == Got(n, rest)
  {
    ValueOfPut(n, k);
    assert (Put(n, k) + rest)[..k] == Put(n, k);
    assert (Put(n, k) + rest)[k..] == rest;
  }

  function PutU32(x: u32): seq<byte> { Put(x, 4) }

  function PutU64(x: u64): seq<byte> { Put(x, 8) }

  function PutI64(x: i64): seq<byte> { Put(if x < 0 then x + 0x1_0000_0000_0000_0000 else x, 8) }

  function PutI8(x: i8): seq<byte> { Put(if x < 0 then x + 256 else x, 1) }

  function PutBool(b: bool): seq<byte> { Put(if b then 1 else 0, 1) }

  function TakeU32(s: seq<byte>): Parsed<u32> {
    Widths();
    match Take(s, 4)
    case Failed => Failed
    case Got(n, rest) => ValueBound(s, 4); Got(n, rest)
  }

  function TakeU64(s: seq<byte>): Parsed<u64> {
    Widths();
    match Take(s, 8)
    case Failed => Failed
    case Got(n, rest) => ValueBound(s, 8); Got(n, rest)
  }

  function TakeI64(s: seq<byte>): Parsed<i64> {
    Widths();
    match Take(s, 8)
    case Failed => Failed
    case Got(n, rest) =>
      ValueBound(s, 8);
      Got(if n < 0x8000_0000_0000_0000 then n else n - 0x1_0000_0000_0000_0000, rest)
  }

  function TakeI8(s: seq<byte>): Parsed<i8> {
    Widths();
    match Take(s, 1)
    case Failed => Failed
    case Got(n, rest) => ValueBound(s, 1); Got(if n < 128 then n else n - 256, rest)
  }

  function TakeBool(s: seq<byte>): Parsed<bool> {
    match Take(s, 1)
    case Failed => Failed
    case Got(n, rest) => Got(n != 0, rest)
  }

  lemma ValueBound(s: seq<byte>, k: nat)
    requires k <= |s|
    ensures Take(s, k).Got? && Take(s, k).value < Pow256(k)
  {
  }

  lemma U32Field(x: u32, rest: seq<byte>)
    ensures TakeU32(PutU32(x) + rest) == Got(x, rest)
  {
    Widths();
    TakePut(x, 4, rest);
  }

  lemma U64Field(x: u64, rest: seq<byte>)
    ensures TakeU64(PutU64(x) + rest) == Got(x, rest)
  {
    Widths();
    TakePut(x, 8, rest);
  }

  lemma I64Field(x: i64, rest: seq<byte>)
    ensures TakeI64(PutI64(x) + rest) == Got(x, rest)
  {
    Widths();
    TakePut(if x < 0 then x + 0x1_0000_0000_0000_0000 else x, 8, rest);
  }

  lemma I8Field(x: i8, rest: seq<byte>)
    ensures TakeI8(PutI8(x) + rest) == Got(x, rest)
  {
    Widths();
    TakePut(if x < 0 then x + 256 else x, 1, rest);
  }

  lemma BoolField(b: bool, rest: seq<byte>)
    ensures TakeBool(PutBool(b) + rest) == Got(b, rest)
  {
    Widths();
    TakePut(if b then 1 else 0, 1, rest);
  }

  // ---------------------------------------------------------------- one entry

  function PutOptions(o: Options): seq<byte> {
    PutBool(o.pinned) + (PutBool(o.grad) + (PutI8(o.dtype) + (PutI8(o.deviceIndex) + (PutI8(o.deviceType) + PutI8(o.layout)))))
  }

  function TakeOptions(s: seq<byte>): Parsed<Options> {
    match TakeBool(s) case Failed => Failed case Got(pinned, s1) =>
    match TakeBool(s1) case Failed => Failed case Got(grad, s2) =>
    match TakeI8(s2) case Failed => Failed case Got(dtype, s3) =>
    match TakeI8(s3) case Failed => Failed case Got(index, s4) =>
    match TakeI8(s4) case Failed => Failed case Got(kind, s5) =>
    match TakeI8(s5) case Failed => Failed case Got(layout, s6) =>
    Got(Options(pinned, grad, dtype, index, kind, layout), s6)
  }

  /** Values one after the other. */
  function PutMany<T>(put: T -> seq<byte>, vs: seq<T>): seq<byte> {
    if vs == [] then [] else PutMany(put, vs[..|vs| - 1]) + put(vs[|vs| - 1])
  }

  /** n values read one after the other. */
  function Many<T>(take: seq<byte> -> Parsed<T>, s: seq<byte>, n: nat): (p: Parsed<seq<T>>)
    ensures p.Got? ==> |p.value| == n
  {
    if n == 0 then Got([], s) else
      match Many(take, s, n - 1)
      case Failed => Failed
      case Got(vs, rest) =>
        match take(rest)
        case Failed => Failed
        case Got(v, rest2) => Got(vs + [v], rest2)
  }

  lemma Assoc(a: seq<byte>, b: seq<byte>, c: seq<byte>)
    ensures (a + b) + c == a + (b + c)
  {
  }

  /** Self-delimiting values stay so in a row. */
  lemma {:induction false} ManyRoundTrip<T>(take: seq<byte> -> Parsed<T>, put: T -> seq<byte>, vs: seq<T>, rest: seq<byte>)
    requires forall v, r :: v in vs ==> take(put(v) + r) == Got(v, r)
    ensures Many(take, PutMany(put, vs) + rest, |vs|) == Got(vs, rest)
    decreases |vs|
  {
    if vs == [] {
      assert PutMany(put, vs) + rest == rest;
    } else {
      var init, last := vs[..|vs| - 1], vs[|vs| - 1];
      Assoc(PutMany(put, init), put(last), rest);
      ManyRoundTrip(take, put, init, put(last) + rest);
      assert vs == init + [last];
    }
  }

  lemma ManyStep<T>(take: seq<byte> -> Parsed<T>, s: seq<byte>, n: nat, vs: seq<T>, rest: seq<byte>)
    requires Many(take, s, n) == Got(vs, rest)
    ensures Many(take, s, n + 1) ==
            match take(rest) case Failed => Failed case Got(v, rest2) => Got(vs + [v], rest2)
  {
  }

  lemma {:induction false} ManyFails<T>(take: seq<byte> -> Parsed<T>, s: seq<byte>, i: nat, n: nat)
    requires i <= n && Many(take, s, i).Failed?
    ensures Many(take, s, n).Failed?
    decreases n
  {
    if i < n { ManyFails(take, s, i, n - 1); }
  }

  /** What was read stays read when more bytes follow, if that holds of each value. */
  lemma {:induction false} ManyMore<T>(take: seq<byte> -> Parsed<T>, s: seq<byte>, n: nat, x: seq<byte>)
    requires Many(take, s, n).Got?
    requires forall r :: take(r).Got? ==> take(r + x) == Got(take(r).value, take(r).rest + x)
    ensures Many(take, s + x, n) == Got(Many(take, s, n).value, Many(take, s, n).rest + x)
  {
    if n > 0 {
      ManyMore(take, s, n - 1, x);
      var rest := Many(take, s, n - 1).rest;
      assert take(rest).Got?;
    }
  }

  function PutMeta(m: Meta): seq<byte> {
    PutU32(m.file) + (PutI64(m.offset) + (PutU64(m.size) + (PutI64(|m.shape|) + (PutMany(PutI64, m.shape) + PutOptions(m.options)))))
  }

  /** A negative count makes the vector's resize throw. */
  function TakeShape(s: seq<byte>): Parsed<Shape> {
    match TakeI64(s) case Failed => Failed case Got(n, s1) =>
    if n < 0 then Failed else
      match Many(TakeI64, s1, n) case Failed => Failed case Got(ds, s2) => var shape: Shape := ds; Got(shape, s2)
  }

  function TakeMeta(s: seq<byte>): Parsed<Meta> {
    match TakeU32(s) case Failed => Failed case Got(file, s1) =>
    match TakeI64(s1) case Failed => Failed case Got(offset, s2) =>
    match TakeU64(s2) case Failed => Failed case Got(size, s3) =>
    match TakeShape(s3) case Failed => Failed case Got(shape, s4) =>
    match TakeOptions(s4) case Failed => Failed case Got(options, s5) =>
    Got(Meta(file, offset, size, shape, options), s5)
  }

  lemma DimsRoundTrip(ds: seq<i64>, rest: seq<byte>)
    ensures Many(TakeI64, PutMany(PutI64, ds) + rest, |ds|) == Got(ds, rest)
  {
    forall d: i64, r ensures TakeI64(PutI64(d) + r) == Got(d, r) { I64Field(d, r); }
    ManyRoundTrip(TakeI64, PutI64, ds, rest);
  }

  lemma OptionsRoundTrip(o: Options, rest: seq<byte>)
    ensures TakeOptions(PutOptions(o) + rest) == Got(o, rest)
  {
    var x5 := PutI8(o.layout);
    var x4 := PutI8(o.deviceType) + x5;
    var x3 := PutI8(o.deviceIndex) + x4;
    var x2 := PutI8(o.dtype) + x3;
    var x1 := PutBool(o.grad) + x2;
    Assoc(PutBool(o.pinned), x1, rest);
    Assoc(PutBool(o.grad), x2, rest);
    Assoc(PutI8(o.dtype), x3, rest);
    Assoc(PutI8(o.deviceIndex), x4, rest);
    Assoc(PutI8(o.deviceType), x5, rest);
    BoolField(o.pinned, x1 + rest);
    BoolField(o.grad, x2 + rest);
    I8Field(o.dtype, x3 + rest);
    I8Field(o.deviceIndex, x4 + rest);
    I8Field(o.deviceType, x5 + rest);
    I8Field(o.layout, rest);
  }

  /** An entry is self-delimiting: reading it back consumes its own bytes and no others. */
  lemma MetaRoundTrip(m: Meta, rest: seq<byte>)
    ensures TakeMeta(PutMeta(m) + rest) == Got(m, rest)
  {
    var x5 := PutOptions(m.options);
    var x4 := PutMany(PutI64, m.shape) + x5;
    var x3 := PutI64(|m.shape|) + x4;
    var x2 := PutU64(m.size) + x3;
    var x1 := PutI64(m.offset) + x2;
    Assoc(PutU32(m.file), x1, rest);
    Assoc(PutI64(m.offset), x2, rest);
    Assoc(PutU64(m.size), x3, rest);
    Assoc(PutI64(|m.shape|), x4, rest);
    Assoc(PutMany(PutI64, m.shape), x5, rest);
    U32Field(m.file, x1 + rest);
    I64Field(m.offset, x2 + rest);
    U64Field(m.size, x3 + rest);
    I64Field(|m.shape|, x4 + rest);
    DimsRoundTrip(m.shape, x5 + rest);
    OptionsRoundTrip(m.options, rest);
  }

  // ---------------------------------------------------------------- the index

  /** Any order in which a map can be walked. */
  ghost predicate Walks(order: seq<u32>, m: map<u32, Meta>) {
    && NoRepeat(order)
    && (forall k: u32 :: k in order <==> k in m)
  }

  type Entry = (u32, Meta)

  /** The entries in walking order. */
  function Entries(m: map<u32, Meta>, order: seq<u32>): (es: seq<Entry>)
    requires forall k :: k in order ==> k in m
  {
    seq(|order|, i requires 0 <= i < |order| => (order[i], m[order[i]]))
  }

  function PutEntry(e: Entry): seq<byte> { PutU32(e.0) + PutMeta(e.1) }

  function TakeEntry(s: seq<byte>): Parsed<Entry> {
    match TakeU32(s) case Failed => Failed case Got(key, s1) =>
    match TakeMeta(s1) case Failed => Failed case Got(meta, s2) => Got((key, meta), s2)
  }

  /** The count is stored in 32 bits. */
  function PutIndex(m: map<u32, Meta>, order: seq<u32>): seq<byte>
    requires forall k :: k in order ==> k in m
  {
    PutU32(|m| % 0x1_0000_0000) + PutMany(PutEntry, Entries(m, order))
  }

  /** Insertion of each entry in turn; an entry that is already there is kept. */
  function InsertAll(es: seq<Entry>): map<u32, Meta> {
    if es == [] then map[] else
      var m, e := InsertAll(es[..|es| - 1]), es[|es| - 1];
      if e.0 in m then m else m[e.0 := e.1]
  }

  lemma InsertNext(es: seq<Entry>, e: Entry)
    ensures var m := InsertAll(es); InsertAll(es + [e]) == if e.0 in m then m else m[e.0 := e.1]
  {
    assert (es + [e])[..|es|] == es;
  }

  function TakeIndex(s: seq<byte>): Parsed<map<u32, Meta>> {
    match TakeU32(s) case Failed => Failed case Got(n, s1) =>
    match Many(TakeEntry, s1, n) case Failed => Failed case Got(es, s2) => Got(InsertAll(es), s2)
  }

  lemma EntryRoundTrip(e: Entry, rest: seq<byte>)
    ensures TakeEntry(PutEntry(e) + rest) == Got(e, rest)
  {
    Assoc(PutU32(e.0), PutMeta(e.1), rest);
    U32Field(e.0, PutMeta(e.1) + rest);
    MetaRoundTrip(e.1, rest);
  }

  /** Distinct keys are all inserted. */
  lemma {:induction false} InsertedAll(m: map<u32, Meta>, order: seq<u32>)
    requires NoRepeat(order) && forall k :: k in order ==> k in m
    ensures InsertAll(Entries(m, order)).Keys == set k | k in order
    ensures forall k :: k in order ==> InsertAll(Entries(m, order))[k] == m[k]
    decreases |order|
  {
    if order != [] {
      var init, last := order[..|order| - 1], order[|order| - 1];
      assert order == init + [last] && last !in init;
      InsertedAll(m, init);
      assert Entries(m, order)[..|order| - 1] == Entries(m, init);
    }
  }

  lemma WalkRebuilds(m: map<u32, Meta>, order: seq<u32>)
    requires Walks(order, m)
    ensures InsertAll(Entries(m, order)) == m
  {
    InsertedAll(m, order);
    assert InsertAll(Entries(m, order)).Keys == m.Keys;
  }

  lemma {:induction false} WalkLength(order: seq<u32>, keys: set<u32>)
    requires NoRepeat(order)
    requires forall k: u32 :: k in order <==> k in keys
    ensures |order| == |keys|
    decreases |order|
  {
    if order == [] {
      assert keys == {};
    } else {
      var init, last := order[..|order| - 1], order[|order| - 1];
      assert order == init + [last] && last !in init;
      WalkLength(init, keys - {last});
    }
  }

  /** Deserialize after Serialize gives the index back, in whatever order it was walked,
      exactly when it has fewer than 2^32 entries. */
  lemma IndexRoundTrip(m: map<u32, Meta>, order: seq<u32>)
    requires Walks(order, m)
    ensures TakeIndex(PutIndex(m, order)) == Got(m, []) <==> |m| < 0x1_0000_0000
  {
    if |m| < 0x1_0000_0000 {
      SmallIndex(m, order);
    } else {
      FullIndex(m, order);
    }
  }

  lemma SmallIndex(m: map<u32, Meta>, order: seq<u32>)
    requires Walks(order, m) && |m| < 0x1_0000_0000
    ensures TakeIndex(PutIndex(m, order)) == Got(m, [])
  {
    WalkLength(order, m.Keys);
    WalkRebuilds(m, order);
    SmallCount(m, order);
    EntriesReadBack(Entries(m, order));
    CountThen(|m|, PutMany(PutEntry, Entries(m, order)));
  }

  lemma SmallCount(m: map<u32, Meta>, order: seq<u32>)
    requires (forall k :: k in order ==> k in m) && |m| < 0x1_0000_0000
    ensures PutIndex(m, order) == PutU32(|m|) + PutMany(PutEntry, Entries(m, order))
  {
  }

  lemma EntriesReadBack(es: seq<Entry>)
    ensures Many(TakeEntry, PutMany(PutEntry, es), |es|) == Got(es, [])
  {
    EachEntry();
    ManyReadBack(TakeEntry, PutEntry, es);
  }

  lemma EachEntry()
    ensures forall e: Entry, r :: TakeEntry(PutEntry(e) + r) == Got(e, r)
  {
    forall e: Entry, r ensures TakeEntry(PutEntry(e) + r) == Got(e, r) { EntryRoundTrip(e, r); }
  }

  lemma ManyReadBack<T>(take: seq<byte> -> Parsed<T>, put: T -> seq<byte>, vs: seq<T>)
    requires forall v, r :: v in vs ==> take(put(v) + r) == Got(v, r)
    ensures Many(take, PutMany(put, vs), |vs|) == Got(vs, [])
  {
    ManyRoundTrip(take, put, vs, []);
    assert PutMany(put, vs) + [] == PutMany(put, vs);
  }

  /** An index with every possible key has its count cut to zero and comes back empty. */
  lemma FullIndex(m: map<u32, Meta>, order: seq<u32>)
    requires Walks(order, m) && |m| >= 0x1_0000_0000
    ensures |m| == 0x1_0000_0000 && TakeIndex(PutIndex(m, order)).Got?
    ensures TakeIndex(PutIndex(m, order)).value == map[] != m
  {
    KeyBound(m.Keys, 0x1_0000_0000);
    CountThen(0, PutMany(PutEntry, Entries(m, order)));
  }

  lemma CountThen(n: u32, body: seq<byte>)
    ensures TakeIndex(PutU32(n) + body) ==
            match Many(TakeEntry, body, n) case Failed => Failed case Got(es, rest) => Got(InsertAll(es), rest)
  {
    U32Field(n, body);
  }

  lemma {:induction false} KeyBound(keys: set<u32>, n: nat)
    requires forall k :: k in keys ==> k < n
    ensures |keys| <= n
  {
    if n == 0 {
      assert keys == {};
    } else {
      var fewer := set k | k in keys && k != n - 1;
      KeyBound(fewer, n - 1);
      assert keys <= fewer + {n - 1};
      OneMore(keys, fewer, n - 1);
    }
  }

  lemma OneMore(keys: set<u32>, fewer: set<u32>, k: int)
    requires forall j :: j in keys ==> j == k || j in fewer
    ensures |keys| <= |fewer| + 1
  {
    var without := keys - {k};
    assert without <= fewer;
    SubsetSize(without, fewer);
    if k in keys { assert keys == without + {k}; } else { assert keys == without; }
  }

  // ---------------------------------------------------------------- truncated files

  /** What was read stays read when more bytes follow. */
  lemma TakeMore(s: seq<byte>, k: nat, x: seq<byte>)
    requires k <= |s|
    ensures Take(s + x, k) == Got(Take(s, k).value, Take(s, k).rest + x)
  {
    assert (s + x)[..k] == s[..k];
    assert (s + x)[k..] == s[k..] + x;
  }

  lemma FieldMore(s: seq<byte>, x: seq<byte>)
    ensures TakeU32(s).Got? ==> TakeU32(s + x) == Got(TakeU32(s).value, TakeU32(s).rest + x)
    ensures TakeU64(s).Got? ==> TakeU64(s + x) == Got(TakeU64(s).value, TakeU64(s).rest + x)
    ensures TakeI64(s).Got? ==> TakeI64(s + x) == Got(TakeI64(s).value, TakeI64(s).rest + x)
    ensures TakeI8(s).Got? ==> TakeI8(s + x) == Got(TakeI8(s).value, TakeI8(s).rest + x)
    ensures TakeBool(s).Got? ==> TakeBool(s + x) == Got(TakeBool(s).value, TakeBool(s).rest + x)
  {
    if |s| >= 1 { TakeMore(s, 1, x); }
    if |s| >= 4 { TakeMore(s, 4, x); }
    if |s| >= 8 { TakeMore(s, 8, x); }
  }

  lemma OptionsMore(s: seq<byte>, x: seq<byte>)
    requires TakeOptions(s).Got?
    ensures TakeOptions(s + x) == Got(TakeOptions(s).value, TakeOptions(s).rest + x)
  {
    var s1 := TakeBool(s).rest;
    var s2 := TakeBool(s1).rest;
    var s3 := TakeI8(s2).rest;
    var s4 := TakeI8(s3).rest;
    var s5 := TakeI8(s4).rest;
    FieldMore(s, x);
    FieldMore(s1, x);
    FieldMore(s2, x);
    FieldMore(s3, x);
    FieldMore(s4, x);
    FieldMore(s5, x);
  }

  lemma ShapeMore(s: seq<byte>, x: seq<byte>)
    requires TakeShape(s).Got?
    ensures TakeShape(s + x) == Got(TakeShape(s).value, TakeShape(s).rest + x)
  {
    FieldMore(s, x);
    forall r ensures TakeI64(r).Got? ==> TakeI64(r + x) == Got(TakeI64(r).value, TakeI64(r).rest + x) { FieldMore(r, x); }
    ManyMore(TakeI64, TakeI64(s).rest, TakeI64(s).value, x);
  }

  lemma MetaMore(s: seq<byte>, x: seq<byte>)
    requires TakeMeta(s).Got?
    ensures TakeMeta(s + x) == Got(TakeMeta(s).value, TakeMeta(s).rest + x)
  {
    var s1 := TakeU32(s).rest;
    var s2 := TakeI64(s1).rest;
    var s3 := TakeU64(s2).rest;
    FieldMore(s, x);
    FieldMore(s1, x);
    FieldMore(s2, x);
    ShapeMore(s3, x);
    OptionsMore(TakeShape(s3).rest, x);
  }

  lemma EntryMore(s: seq<byte>, x: seq<byte>)
    requires TakeEntry(s).Got?
    ensures TakeEntry(s + x) == Got(TakeEntry(s).value, TakeEntry(s).rest + x)
  {
    FieldMore(s, x);
    MetaMore(TakeU32(s).rest, x);
  }

  lemma IndexMore(s: seq<byte>, x: seq<byte>)
    requires TakeIndex(s).Got?
    ensures TakeIndex(s + x) == Got(TakeIndex(s).value, TakeIndex(s).rest + x)
  {
    FieldMore(s, x);
    forall r ensures TakeEntry(r).Got? ==> TakeEntry(r + x) == Got(TakeEntry(r).value, TakeEntry(r).rest + x) {
      if TakeEntry(r).Got? { EntryMore(r, x); }
    }
    ManyMore(TakeEntry, TakeU32(s).rest, TakeU32(s).value, x);
  }

  /** No proper prefix of a serialized index is accepted. */
  lemma TruncatedFails(m: map<u32, Meta>, order: seq<u32>, cut: nat)
    requires Walks(order, m) && |m| < 0x1_0000_0000 && cut < |PutIndex(m, order)|
    ensures TakeIndex(PutIndex(m, order)[..cut]).Failed?
  {
    var whole := PutIndex(m, order);
    var p, x := whole[..cut], whole[cut..];
    assert p + x == whole;
    SmallIndex(m, order);
    if TakeIndex(p).Got? {
      IndexMore(p, x);
    }
  }

  // ---------------------------------------------------------------- the stream code

  /** operator<< of one entry. */
  method WriteMeta(m: Meta) returns (out: seq<byte>)
    ensures out == PutMeta(m)
  {
    var dims := [];
    for i := 0 to |m.shape|
      invariant dims == PutMany(PutI64, m.shape[..i])
    {
      assert m.shape[..i + 1][..i] == m.shape[..i];
      dims := dims + PutI64(m.shape[i]);
    }
    assert m.shape[..|m.shape|] == m.shape;
    out := PutU32(m.file) + (PutI64(m.offset) + (PutU64(m.size) + (PutI64(|m.shape|) + (dims + PutOptions(m.options)))));
  }

  /** The dimension loop of operator>>. */
  method ReadDims(s: seq<byte>, n: nat) returns (p: Parsed<seq<i64>>)
    ensures p == Many(TakeI64, s, n)
  {
    p := Got([], s);
    var i := 0;
    while i < n
      invariant 0 <= i <= n
      invariant p == Many(TakeI64, s, i)
    {
      match p {
        case Failed => {}
        case Got(dims, rest) =>
          match TakeI64(rest) {
            case Failed => p := Failed;
            case Got(d, rest2) => p := Got(dims + [d], rest2);
          }
      }
      i := i + 1;
    }
  }

  /** operator>> of one entry. */
  method ReadMeta(s: seq<byte>) returns (p: Parsed<Meta>)
    ensures p == TakeMeta(s)
  {
    match TakeU32(s) { case Failed => return Failed; case Got(file, s1) =>
    match TakeI64(s1) { case Failed => return Failed; case Got(offset, s2) =>
    match TakeU64(s2) { case Failed => return Failed; case Got(size, s3) =>
    match TakeI64(s3) { case Failed => return Failed; case Got(n, s4) =>
      if n < 0 {
        return Failed;
      }
      var dims := ReadDims(s4, n);
      match dims { case Failed => return Failed; case Got(ds, s5) =>
      match TakeOptions(s5) { case Failed => return Failed; case Got(options, s6) =>
        var shape: Shape := ds;
        p := Got(Meta(file, offset, size, shape, options), s6);
      } } } } } }
  }

  /** A key and its entry. */
  method ReadEntry(s: seq<byte>) returns (p: Parsed<Entry>)
    ensures p == TakeEntry(s)
  {
    match TakeU32(s) {
      case Failed => return Failed;
      case Got(key, rest) =>
        var meta := ReadMeta(rest);
        match meta {
          case Failed => return Failed;
          case Got(value, after) => return Got((key, value), after);
        }
    }
  }

  /** ArcherTensorIndex. */
  class TensorIndex {
    var entries: map<u32, Meta>

    /** `order` is the order in which the hash map is walked. */
    method Serialize(order: seq<u32>) returns (out: seq<byte>)
      requires Walks(order, entries)
      ensures out == PutIndex(entries, order)
    {
      ghost var es := Entries(entries, order);
      out := [];
      for i := 0 to |order|
        invariant out == PutMany(PutEntry, es[..i])
      {
        var meta := WriteMeta(entries[order[i]]);
        assert es[..i + 1][..i] == es[..i];
        out := out + (PutU32(order[i]) + meta);
      }
      assert es[..|order|] == es;
      out := PutU32(|entries| % 0x1_0000_0000) + out;
    }

    /** `ok` is false where the stream ends early or holds a negative dimension count. */
    method Deserialize(data: seq<byte>) returns (ok: bool)
      modifies this
      ensures ok <==> TakeIndex(data).Got?
      ensures ok ==> entries == TakeIndex(data).value
    {
      entries := map[];
      match TakeU32(data) {
        case Failed => return false;
        case Got(n, body) =>
          var rest := body;
          ghost var es: seq<Entry> := [];
          var i := 0;
          while i < n
            invariant 0 <= i <= n
            invariant Many(TakeEntry, body, i) == Got(es, rest) && entries == InsertAll(es)
          {
            var entry := ReadEntry(rest);
            ManyStep(TakeEntry, body, i, es, rest);
            match entry {
              case Failed =>
                ManyFails(TakeEntry, body, i + 1, n);
                return false;
              case Got(e, after) =>
                InsertNext(es, e);
                if e.0 !in entries {
                  entries := entries[e.0 := e.1];
                }
                es := es + [e];
                rest := after;
            }
            i := i + 1;
          }
          return true;
      }
    }
  }
}
