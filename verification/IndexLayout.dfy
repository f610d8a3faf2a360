/** Where each field of a serialized index lies, apart from how it is read back. */
module IndexLayout {
  import opened Bytes
  import opened Basics
  import opened IndexCodec

  /** Byte i of a number, the low one being byte 0. */
  function ByteOf(n: nat, i: nat): nat {
    if i == 0 then n % 256 else ByteOf(n / 256, i - 1)
  }

  /** The k bytes of s at `at` are the number n, low byte first. */
  ghost predicate FieldAt(s: seq<byte>, at: nat, n: nat, k: nat) {
    at + k <= |s| && forall i: nat :: i < k ==> s[at + i] as nat == ByteOf(n, i)
  }

  /** Byte i is the number divided by 256^i, modulo 256. */
  lemma {:induction false} ByteOfIs(n: nat, i: nat)
    ensures ByteOf(n, i) == n / Pow256(i) % 256
    decreases i
  {
    if i > 0 {
      ByteOfIs(n / 256, i - 1);
      DivDiv(n, Pow256(i - 1));
    }
  }

  /** A signed number as it is stored. */
  function Unsigned(x: int, span: nat): (n: nat)
    requires x + span >= 0
  {
    if x < 0 then x + span else x
  }

  lemma DivDiv(n: nat, b: nat)
    requires b > 0
    ensures n / (256 * b) == (n / 256) / b
  {
    var q, r := n / 256, n % 256;
    var p, s := q / b, q % b;
    assert n == 256 * (b * p + s) + r == 256 * b * p + (256 * s + r);
    assert 256 * s + r < 256 * b;
    DivIs(n, 256 * b, p, 256 * s + r);
  }

  lemma DivIs(n: nat, d: nat, p: nat, r: nat)
    requires n == d * p + r && r < d
    ensures n / d == p
  {
    var q, t := n / d, n % d;
    assert n == d * q + t;
    if p < q { MulLess(p, q, d); } else if q < p { MulLess(q, p, d); }
  }

  lemma {:induction false} PutAt(n: nat, k: nat, i: nat)
    requires i < k
    ensures Put(n, k)[i] as nat == ByteOf(n, i)
    decreases k
  {
    if i > 0 { PutAt(n / 256, k - 1, i - 1); }
  }

  lemma PutIsField(n: nat, k: nat)
    ensures FieldAt(Put(n, k), 0, n, k)
  {
    forall i: nat | i < k ensures Put(n, k)[i] as nat == ByteOf(n, i) { PutAt(n, k, i); }
  }

  /** A field stays a field inside a longer text. */
  lemma FieldInside(pre: seq<byte>, s: seq<byte>, post: seq<byte>, at: nat, n: nat, k: nat)
    requires FieldAt(s, at, n, k)
    ensures FieldAt(pre + (s + post), |pre| + at, n, k)
  {
    var all := pre + (s + post);
    forall i: nat | i < k ensures all[|pre| + at + i] as nat == ByteOf(n, i) { assert all[|pre| + at + i] == s[at + i]; }
  }

  /** A field written behind `pre` and before `post`. */
  lemma FieldWritten(pre: seq<byte>, n: nat, k: nat, post: seq<byte>)
    ensures FieldAt(pre + (Put(n, k) + post), |pre|, n, k)
  {
    PutIsField(n, k);
    FieldInside(pre, Put(n, k), post, 0, n, k);
  }

  const I64_SPAN := 0x1_0000_0000_0000_0000
  const I8_SPAN := 256

  // ---------------------------------------------------------------- one entry

  /** Pinned, requires-grad, dtype, device index, device type and layout, a byte each. */
  ghost predicate OptionsAt(s: seq<byte>, at: nat, o: Options) {
    && at + 6 <= |s|
    && s[at] as int == (if o.pinned then 1 else 0) && s[at + 1] as int == (if o.grad then 1 else 0)
    && s[at + 2] as int == Unsigned(o.dtype, I8_SPAN) && s[at + 3] as int == Unsigned(o.deviceIndex, I8_SPAN)
    && s[at + 4] as int == Unsigned(o.deviceType, I8_SPAN) && s[at + 5] as int == Unsigned(o.layout, I8_SPAN)
  }

  lemma OptionsLayout(o: Options)
    ensures |PutOptions(o)| == 6 && OptionsAt(PutOptions(o), 0, o)
  {
    OneByte(if o.pinned then 1 else 0);
    OneByte(if o.grad then 1 else 0);
    OneByte(Unsigned(o.dtype, I8_SPAN));
    OneByte(Unsigned(o.deviceIndex, I8_SPAN));
    OneByte(Unsigned(o.deviceType, I8_SPAN));
    OneByte(Unsigned(o.layout, I8_SPAN));
  }

  lemma OneByte(n: nat)
    requires n < 256
    ensures Put(n, 1) == [n as byte]
  {
    assert Put(n / 256, 0) == [];
  }

  lemma OptionsInside(pre: seq<byte>, s: seq<byte>, post: seq<byte>, at: nat, o: Options)
    requires OptionsAt(s, at, o)
    ensures OptionsAt(pre + (s + post), |pre| + at, o)
  {
    var all := pre + (s + post);
    var b := |pre| + at;
    assert all[b] == s[at] && all[b + 1] == s[at + 1] && all[b + 2] == s[at + 2];
    assert all[b + 3] == s[at + 3] && all[b + 4] == s[at + 4] && all[b + 5] == s[at + 5];
  }

  lemma {:induction false} DimsLayout(ds: seq<i64>, d: nat)
    requires d < |ds|
    ensures FieldAt(PutMany(PutI64, ds), 8 * d, Unsigned(ds[d], I64_SPAN), 8)
    decreases |ds|
  {
    var init, last := ds[..|ds| - 1], ds[|ds| - 1];
    DimsLength(init);
    var pre, n := PutMany(PutI64, init), Unsigned(last, I64_SPAN);
    assert PutMany(PutI64, ds) == pre + Put(n, 8);
    if d < |init| {
      DimsLayout(init, d);
      FieldInside([], pre, Put(n, 8), 8 * d, Unsigned(ds[d], I64_SPAN), 8);
      assert [] + (pre + Put(n, 8)) == pre + Put(n, 8);
    } else {
      FieldWritten(pre, n, 8, []);
      assert pre + (Put(n, 8) + []) == pre + Put(n, 8);
    }
  }

  lemma {:induction false} DimsLength(ds: seq<i64>)
    ensures |PutMany(PutI64, ds)| == 8 * |ds|
    decreases |ds|
  {
    if ds != [] { DimsLength(ds[..|ds| - 1]); }
  }

  function MetaLength(m: Meta): nat { 34 + 8 * |m.shape| }

  /** From `at` on: file id at 0, offset at 4, size at 12, dimension count at 20, dimensions from 28
      on, and the options behind them. */
  ghost predicate MetaAt(s: seq<byte>, at: nat, m: Meta) {
    && HeadAt(s, at, m)
    && (forall d: nat :: d < |m.shape| ==> FieldAt(s, at + 28 + 8 * d, Unsigned(m.shape[d], I64_SPAN), 8))
    && OptionsAt(s, at + 28 + 8 * |m.shape|, m.options)
  }

  ghost predicate HeadAt(s: seq<byte>, at: nat, m: Meta) {
    && FieldAt(s, at, m.file, 4) && FieldAt(s, at + 4, Unsigned(m.offset, I64_SPAN), 8)
    && FieldAt(s, at + 12, m.size, 8) && FieldAt(s, at + 20, |m.shape|, 8)
  }

  lemma HeadLayout(m: Meta, tail: seq<byte>)
    ensures var s := PutU32(m.file) + (PutI64(m.offset) + (PutU64(m.size) + (PutI64(|m.shape|) + tail)));
            |s| == 28 + |tail| && s == s[..28] + tail && HeadAt(s, 0, m)
  {
    var a, b, c, d := PutU32(m.file), PutI64(m.offset), PutU64(m.size), PutI64(|m.shape|);
    var s := a + (b + (c + (d + tail)));
    FieldWritten([], m.file, 4, b + (c + (d + tail)));
    assert [] + s == s;
    FieldWritten(a, Unsigned(m.offset, I64_SPAN), 8, c + (d + tail));
    FieldWritten(a + b, m.size, 8, d + tail);
    assert (a + b) + (c + (d + tail)) == s;
    FieldWritten(a + b + c, |m.shape|, 8, tail);
    assert (a + b + c) + (d + tail) == s;
  }

  lemma TailLayout(head: seq<byte>, m: Meta)
    requires |head| == 28
    ensures var s := head + (PutMany(PutI64, m.shape) + PutOptions(m.options));
            && |s| == MetaLength(m)
            && (forall d: nat :: d < |m.shape| ==> FieldAt(s, 28 + 8 * d, Unsigned(m.shape[d], I64_SPAN), 8))
            && OptionsAt(s, 28 + 8 * |m.shape|, m.options)
  {
    var dims, options := PutMany(PutI64, m.shape), PutOptions(m.options);
    DimsLength(m.shape);
    OptionsLayout(m.options);
    forall d: nat | d < |m.shape| ensures FieldAt(head + (dims + options), 28 + 8 * d, Unsigned(m.shape[d], I64_SPAN), 8) {
      DimsLayout(m.shape, d);
      FieldInside(head, dims, options, 8 * d, Unsigned(m.shape[d], I64_SPAN), 8);
    }
    OptionsInside(head + dims, options, [], 0, m.options);
    assert (head + dims) + (options + []) == head + (dims + options);
  }

  lemma MetaLayout(m: Meta)
    ensures |PutMeta(m)| == MetaLength(m) && MetaAt(PutMeta(m), 0, m)
  {
    HeadLayout(m, PutMany(PutI64, m.shape) + PutOptions(m.options));
    TailLayout(PutMeta(m)[..28], m);
  }

  lemma MetaInside(pre: seq<byte>, text: seq<byte>, post: seq<byte>, m: Meta)
    requires MetaAt(text, 0, m)
    ensures MetaAt(pre + (text + post), |pre|, m)
  {
    var s, at := pre + (text + post), |pre|;
    FieldInside(pre, text, post, 0, m.file, 4);
    FieldInside(pre, text, post, 4, Unsigned(m.offset, I64_SPAN), 8);
    FieldInside(pre, text, post, 12, m.size, 8);
    FieldInside(pre, text, post, 20, |m.shape|, 8);
    forall d: nat | d < |m.shape| ensures FieldAt(s, at + 28 + 8 * d, Unsigned(m.shape[d], I64_SPAN), 8) {
      FieldInside(pre, text, post, 28 + 8 * d, Unsigned(m.shape[d], I64_SPAN), 8);
    }
    OptionsInside(pre, text, post, 28 + 8 * |m.shape|, m.options);
  }

  // ---------------------------------------------------------------- values in a row

  /** The bytes of the first j values. */
  function Before<T>(put: T -> seq<byte>, vs: seq<T>, j: nat): nat
    requires j <= |vs|
  {
    if j == 0 then 0 else Before(put, vs, j - 1) + |put(vs[j - 1])|
  }

  lemma {:induction false} SameBefore<T>(put: T -> seq<byte>, vs: seq<T>, n: nat, j: nat)
    requires j <= n <= |vs|
    ensures Before(put, vs[..n], j) == Before(put, vs, j)
  {
    if j > 0 { SameBefore(put, vs, n, j - 1); }
  }

  /** Value j lies behind the bytes of the earlier ones. */
  lemma {:induction false} ManySplit<T>(head: seq<byte>, put: T -> seq<byte>, vs: seq<T>, j: nat) returns (pre: seq<byte>, post: seq<byte>)
    requires j < |vs|
    ensures head + PutMany(put, vs) == pre + (put(vs[j]) + post) && |pre| == |head| + Before(put, vs, j)
    decreases |vs|
  {
    var n := |vs| - 1;
    var init, last := vs[..n], put(vs[n]);
    SameBefore(put, vs, n, j);
    if j < n {
      pre, post := ManySplit(head, put, init, j);
      Regroup(head, PutMany(put, init), last, pre, put(vs[j]), post);
      post := post + last;
    } else {
      pre, post := head + PutMany(put, init), [];
      ManyLength(put, init);
      assert head + (PutMany(put, init) + last) == pre + (last + post);
    }
  }

  lemma Regroup(h: seq<byte>, a: seq<byte>, last: seq<byte>, pre: seq<byte>, t: seq<byte>, post: seq<byte>)
    requires h + a == pre + (t + post)
    ensures h + (a + last) == pre + (t + (post + last))
  {
    assert h + (a + last) == (h + a) + last;
    assert (pre + (t + post)) + last == pre + (t + (post + last));
  }

  lemma {:induction false} ManyLength<T>(put: T -> seq<byte>, vs: seq<T>)
    ensures |PutMany(put, vs)| == Before(put, vs, |vs|)
    decreases |vs|
  {
    if vs != [] {
      var n := |vs| - 1;
      ManyLength(put, vs[..n]);
      SameBefore(put, vs, n, n);
    }
  }

  // ---------------------------------------------------------------- the index

  /** The key, then the entry. */
  ghost predicate EntryAt(s: seq<byte>, at: nat, e: Entry) {
    FieldAt(s, at, e.0, 4) && MetaAt(s, at + 4, e.1)
  }

  /** The bytes of the first j entries, each with its key. */
  function EntryBytes(es: seq<Entry>, j: nat): nat
    requires j <= |es|
  {
    if j == 0 then 0 else EntryBytes(es, j - 1) + 4 + MetaLength(es[j - 1].1)
  }

  lemma EntryLength(e: Entry)
    ensures |PutEntry(e)| == 4 + MetaLength(e.1)
  {
    MetaLayout(e.1);
  }

  lemma {:induction false} EntryBytesAre(es: seq<Entry>, j: nat)
    requires j <= |es|
    ensures Before(PutEntry, es, j) == EntryBytes(es, j)
  {
    if j > 0 {
      EntryBytesAre(es, j - 1);
      EntryLength(es[j - 1]);
    }
  }

  lemma KeyThen(pre: seq<byte>, key: u32, text: seq<byte>, post: seq<byte>, m: Meta)
    requires MetaAt(text, 0, m)
    ensures EntryAt(pre + ((PutU32(key) + text) + post), |pre|, (key, m))
  {
    var k := PutU32(key);
    FieldWritten(pre, key, 4, text + post);
    MetaInside(pre + k, text, post, m);
    assert pre + ((k + text) + post) == pre + (k + (text + post)) == (pre + k) + (text + post);
  }

  lemma EntryWritten(pre: seq<byte>, e: Entry, post: seq<byte>)
    ensures EntryAt(pre + (PutEntry(e) + post), |pre|, e)
  {
    MetaLayout(e.1);
    KeyThen(pre, e.0, PutMeta(e.1), post, e.1);
  }

  lemma CountFirst(n: u32, body: seq<byte>)
    ensures FieldAt(PutU32(n) + body, 0, n, 4)
  {
    FieldWritten([], n, 4, body);
    assert [] + (PutU32(n) + body) == PutU32(n) + body;
  }

  lemma EntryBehind(s: seq<byte>, at: nat, pre: seq<byte>, t: seq<byte>, post: seq<byte>, e: Entry)
    requires s == pre + (t + post) && |pre| == at && t == PutEntry(e)
    ensures EntryAt(s, at, e)
  {
    EntryWritten(pre, e, post);
  }

  /** An entry behind `head` and the earlier ones. */
  lemma ListLayout(s: seq<byte>, head: seq<byte>, es: seq<Entry>, j: nat, at: nat)
    requires j < |es| && s == head + PutMany(PutEntry, es) && at == |head| + EntryBytes(es, j)
    ensures EntryAt(s, at, es[j])
  {
    EntryBytesAre(es, j);
    var pre, post := ManySplit(head, PutEntry, es, j);
    EntryBehind(s, at, pre, PutEntry(es[j]), post, es[j]);
  }

  lemma ListLength(es: seq<Entry>)
    ensures |PutMany(PutEntry, es)| == EntryBytes(es, |es|)
  {
    ManyLength(PutEntry, es);
    EntryBytesAre(es, |es|);
  }

  /** The count, then each key with its entry right behind it, in walking order, and nothing else. */
  ghost predicate FileAt(s: seq<byte>, count: nat, es: seq<Entry>) {
    && FieldAt(s, 0, count, 4) && |s| == 4 + EntryBytes(es, |es|)
    && forall j: nat :: j < |es| ==> EntryAt(s, 4 + EntryBytes(es, j), es[j])
  }

  lemma FileLayout(s: seq<byte>, head: seq<byte>, count: u32, es: seq<Entry>)
    requires head == PutU32(count) && s == head + PutMany(PutEntry, es)
    ensures FileAt(s, count, es)
  {
    CountFirst(count, PutMany(PutEntry, es));
    ListLength(es);
    forall j: nat | j < |es| ensures EntryAt(s, 4 + EntryBytes(es, j), es[j]) {
      ListLayout(s, head, es, j, 4 + EntryBytes(es, j));
    }
  }

  lemma IndexFileLayout(m: map<u32, Meta>, order: seq<u32>)
    requires forall k :: k in order ==> k in m
    ensures FileAt(PutIndex(m, order), |m| % 0x1_0000_0000, Entries(m, order))
  {
    var count := |m| % 0x1_0000_0000;
    FileLayout(PutIndex(m, order), PutU32(count), count, Entries(m, order));
  }

  // ---------------------------------------------------------------- repeated keys

  /** Entry i is the first with its key. */
  ghost predicate FirstOf(es: seq<Entry>, i: nat) {
    i < |es| && forall k :: 0 <= k < i ==> es[k].0 != es[i].0
  }

  /** Of several entries with one key the first is kept, and no other key appears. */
  lemma {:induction false} FirstEntryWins(es: seq<Entry>)
    ensures forall k: u32 :: k in InsertAll(es) ==> exists i: nat :: FirstOf(es, i) && es[i].0 == k
    ensures forall i: nat :: FirstOf(es, i) ==> es[i].0 in InsertAll(es) && InsertAll(es)[es[i].0] == es[i].1
    decreases |es|
  {
    if es != [] {
      var init, n := es[..|es| - 1], |es| - 1;
      FirstEntryWins(init);
      forall i: nat | i < n ensures FirstOf(es, i) <==> FirstOf(init, i) { }
      forall k: u32 | k in InsertAll(es) ensures exists i: nat :: FirstOf(es, i) && es[i].0 == k {
        if k in InsertAll(init) {
          var i: nat :| FirstOf(init, i) && init[i].0 == k;
          assert FirstOf(es, i);
        } else {
          NewKey(es);
        }
      }
      forall i: nat | FirstOf(es, i) ensures es[i].0 in InsertAll(es) && InsertAll(es)[es[i].0] == es[i].1 {
        if i < n { assert FirstOf(init, i); }
      }
    }
  }

  lemma {:induction false} KeysInserted(es: seq<Entry>, i: nat)
    requires i < |es|
    ensures es[i].0 in InsertAll(es)
    decreases |es|
  {
    if i < |es| - 1 { KeysInserted(es[..|es| - 1], i); }
  }

  lemma NewKey(es: seq<Entry>)
    requires es != [] && es[|es| - 1].0 !in InsertAll(es[..|es| - 1])
    ensures FirstOf(es, |es| - 1)
  {
    var n := |es| - 1;
    forall k | 0 <= k < n ensures es[k].0 != es[n].0 { KeysInserted(es[..n], k); }
  }
}
