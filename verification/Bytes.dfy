/** Bytes, and what memcpy leaves in an array. */
module Bytes {
  type Byte = b: int | 0 <= b < 256

  /** memcpy into `a` at offset `at`. */
  method CopyInto(a: array<Byte>, at: nat, src: seq<Byte>)
    requires at + |src| <= a.Length
    modifies a
    ensures a[..] == old(a[..at]) + src + old(a[at + |src|..])
  {
    forall i | 0 <= i < |src| {
      a[at + i] := src[i];
    }
  }
}
