/** Bytes, the 4096-byte alignment, and positioned file writes. */
module Bytes {

  newtype byte = x: int | 0 <= x < 256

  const ALIGNMENT := 4096

  /** A size rounded up to the I/O alignment. */
  function Align(n: nat): (r: nat)
    ensures r % ALIGNMENT == 0 && n <= r < n + ALIGNMENT
  {
    (n + ALIGNMENT - 1) / ALIGNMENT * ALIGNMENT
  }

  function Zeros(n: nat): (z: seq<byte>)
    ensures |z| == n && forall i :: 0 <= i < n ==> z[i] == 0
  {
    seq(n, _ => 0)
  }

  /** Data followed by the zero fill up to the alignment. */
  function Pad(data: seq<byte>): (r: seq<byte>)
    ensures |r| == Align(|data|) && r[..|data|] == data
    ensures forall i :: |data| <= i < |r| ==> r[i] == 0
  {
    data + Zeros(Align(|data|) - |data|)
  }

  function Max(a: nat, b: nat): nat { if a >= b then a else b }

  /** pwrite: the bytes at `off` are replaced and a gap past the old end reads as zero. */
  function PWrite(file: seq<byte>, off: nat, data: seq<byte>): (r: seq<byte>)
    ensures |r| == if data == [] then |file| else Max(|file|, off + |data|)
    ensures forall p :: 0 <= p < |r| ==>
              r[p] == if off <= p < off + |data| then data[p - off] else if p < |file| then file[p] else 0
  {
    if data == [] then
      file
    else
      seq(Max(|file|, off + |data|), p requires 0 <= p =>
        if off <= p < off + |data| then data[p - off] else if p < |file| then file[p] else 0)
  }

  /** The first bytes of a buffer replaced. */
  function Overwrite(buf: seq<byte>, data: seq<byte>): (r: seq<byte>)
    requires |data| <= |buf|
    ensures |r| == |buf| && r[..|data|] == data && r[|data|..] == buf[|data|..]
  {
    data + buf[|data|..]
  }
}
