/** Machine-sized numbers the driver works with, and lists of them. */
module Bytes {

  type Byte = b: int | 0 <= b < 0x100

  /** A three-bit H5 sequence or acknowledgement number. */
  type Seqno = s: int | 0 <= s < 8

  datatype Option<+T> = None | Some(value: T)

  /** The sequence number after `s`. */
  function Succ(s: Seqno): Seqno {
    (s + 1) % 8
  }

  /** The sequence number before `s`. */
  function Pred(s: Seqno): Seqno {
    (s + 7) % 8
  }

  /** Two octets, the low one first. */
  function Le16(s: seq<Byte>, i: nat): (r: nat)
    requires i + 1 < |s|
    ensures r < 0x10000
  {
    var low: int, high: int := s[i], s[i + 1];
    low + 0x100 * high
  }

  /** A buffer after `e` is copied over its front, as far as it goes. */
  function Filled(was: seq<Byte>, e: seq<Byte>): (r: seq<Byte>)
    ensures |r| == |was|
    ensures forall k :: 0 <= k < |was| ==> r[k] == if k < |e| then e[k] else was[k]
  {
    if |e| >= |was| then e[..|was|] else e + was[|e|..]
  }
}
