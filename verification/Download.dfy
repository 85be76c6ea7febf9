/** Cutting the firmware image into numbered download packets. */
module Download {
  import opened Bytes

  const CHUNK: nat := 252

  /** A download command: the index octet and the data. */
  datatype Pkt = Pkt(index: Byte, data: seq<Byte>)

  // ----- What the packets are -----

  /** How many data packets there are, less one. */
  function EndIdx(size: nat): nat
    requires size >= 1
  {
    (size - 1) / CHUNK
  }

  /** What is missing to the next number one short of a multiple of eight. */
  function Fill(x: nat): (r: nat)
    ensures r < 8 && (x + r + 1) % 8 == 0
  {
    7 - x % 8
  }

  /** Empty packets that make the sequence number come out at zero after one more command. */
  function Padding(commands: nat, size: nat, h5: bool): (r: nat)
    requires size >= 1
    ensures r < 8
    ensures h5 ==> (commands + EndIdx(size) + 1 + r + 1) % 8 == 0
    ensures !h5 ==> r == 0
  {
    if !h5 then 0 else Fill(commands + EndIdx(size) + 1)
  }

  /** The number of the last packet. */
  function Last(commands: nat, size: nat, h5: bool): (r: nat)
    requires size >= 1
    ensures r >= EndIdx(size)
  {
    EndIdx(size) + Padding(commands, size, h5)
  }

  /** The index of packet `i`, without the mark of the last one: it runs to 127 and then from 1. */
  function Index(i: nat): Byte {
    if i <= 127 then i else (i - 1) % 127 + 1
  }

  function Chunk(image: seq<Byte>, i: nat): (r: seq<Byte>)
    ensures |r| <= CHUNK
  {
    if i * CHUNK >= |image| then []
    else if (i + 1) * CHUNK >= |image| then image[i * CHUNK..]
    else image[i * CHUNK..(i + 1) * CHUNK]
  }

  function PktAt(image: seq<Byte>, total: nat, i: nat): Pkt {
    Pkt(Index(i) + if i == total then 0x80 else 0, Chunk(image, i))
  }

  function Pkts(image: seq<Byte>, total: nat, n: nat): (r: seq<Pkt>)
    ensures |r| == n
  {
    if n == 0 then [] else Pkts(image, total, n - 1) + [PktAt(image, total, n - 1)]
  }

  function Joined(pkts: seq<Pkt>): seq<Byte> {
    if pkts == [] then [] else Joined(pkts[..|pkts| - 1]) + pkts[|pkts| - 1].data
  }

  // ----- What they carry -----

  function Front(image: seq<Byte>, k: nat): seq<Byte> {
    if k <= |image| then image[..k] else image
  }

  lemma FrontChunk(image: seq<Byte>, i: nat)
    ensures Front(image, i * CHUNK) + Chunk(image, i) == Front(image, (i + 1) * CHUNK)
  {}

  lemma {:induction false} JoinedPrefix(image: seq<Byte>, total: nat, n: nat)
    ensures Joined(Pkts(image, total, n)) == Front(image, n * CHUNK)
  {
    if n > 0 {
      JoinedPrefix(image, total, n - 1);
      assert Pkts(image, total, n)[..n - 1] == Pkts(image, total, n - 1);
      FrontChunk(image, n - 1);
    }
  }

  lemma EndIdxLast(size: nat)
    requires size >= 1
    ensures EndIdx(size) * CHUNK < size <= (EndIdx(size) + 1) * CHUNK
  {}

  /** Together the packets carry the image, exactly. */
  lemma Partition(image: seq<Byte>, total: nat)
    requires image != [] && total >= EndIdx(|image|)
    ensures Joined(Pkts(image, total, total + 1)) == image
  {
    EndIdxLast(|image|);
    JoinedPrefix(image, total, total + 1);
  }

  lemma {:induction false} PktsAt(image: seq<Byte>, total: nat, n: nat, i: nat)
    requires i < n
    ensures Pkts(image, total, n)[i] == PktAt(image, total, i)
  {
    if i < n - 1 {
      PktsAt(image, total, n - 1, i);
    }
  }

  /**
   * Packet `i` has index `i` up to 127 and ((i - 1) mod 127) + 1 from there on, only the last one
   * bears the mark, and neighbours never share an index.
   */
  lemma Marks(image: seq<Byte>, total: nat, i: nat)
    requires i <= total
    ensures var p := Pkts(image, total, total + 1)[i];
      && (p.index >= 0x80 <==> i == total)
      && p.index % 0x80 == (if i <= 127 then i else (i - 1) % 127 + 1)
      && |p.data| <= CHUNK
    ensures Index(i) != Index(i + 1)
  {
    PktsAt(image, total, total + 1, i);
  }

  // ----- Counting in 16 bits -----

  /** How much of the image the loop can reach: the number of the last data packet is kept in 16 bits. */
  function CutSize(size: nat): (r: nat)
    requires size >= 1
    ensures 1 <= r <= size
    ensures EndIdx(r) == EndIdx(size) % 0x10000 && r - EndIdx(r) * CHUNK == size - EndIdx(size) * CHUNK
    ensures r == size <==> EndIdx(size) < 0x10000
  {
    EndIdxLast(size);
    EndIdx(size) % 0x10000 * CHUNK + (size - EndIdx(size) * CHUNK)
  }

  function Cut(image: seq<Byte>): (r: seq<Byte>)
    requires image != []
    ensures r != [] && r <= image && |r| == CutSize(|image|)
  {
    image[..CutSize(|image|)]
  }

  /** How many packets the loop sends. */
  function Rounds(last: nat): (r: nat)
    ensures 1 <= r <= 0x10000
  {
    last % 0x10000 + 1
  }

  /** The loop's bound is the number of the last packet, or has wrapped to one before the last data packet. */
  lemma Wrapped(endIdx: nat, last: nat)
    requires endIdx < 0x10000 && endIdx <= last <= endIdx + 7
    ensures Rounds(last) == last + 1 || (last == Rounds(last) + 0xffff && Rounds(last) <= 7 && endIdx >= 0xfff9)
  {}

  lemma LastNear(commands: nat, size: nat, h5: bool)
    requires size >= 1
    ensures EndIdx(size) <= Last(commands, size, h5) <= EndIdx(size) + 7
  {}

  lemma FewCarry(image: seq<Byte>, last: nat, n: nat)
    ensures |Joined(Pkts(image, last, n))| <= n * CHUNK
  {
    JoinedPrefix(image, last, n);
  }

  /**
   * If all packets are confirmed, the loop ends and has sent the whole image exactly if the number of
   * the last packet is below 0xffff.
   */
  lemma WholeImage(image: seq<Byte>, commands: nat, h5: bool, last: nat)
    requires image != [] && last == Last(commands, |Cut(image)|, h5)
    ensures last != 0xffff && Joined(Pkts(Cut(image), last, Rounds(last))) == image
       <==> Last(commands, |image|, h5) < 0xffff
  {
    var cut := Cut(image);
    LastNear(commands, |cut|, h5);
    LastNear(commands, |image|, h5);
    Wrapped(EndIdx(|cut|), last);
    JoinedPrefix(cut, last, Rounds(last));
    if Rounds(last) == last + 1 {
      Partition(cut, last);
      assert cut == image[..|cut|];
    } else {
      EndIdxLast(|cut|);
      FewCarry(cut, last, Rounds(last));
    }
  }

  lemma OneOver(size: nat)
    requires size == 0xfc0001
    ensures EndIdx(size) == 0x10000 && CutSize(size) == 1
  {}

  lemma CutSent(cut: seq<Byte>, last: nat, n: nat)
    requires cut != [] && EndIdx(|cut|) <= last && n == last + 1
    ensures Joined(Pkts(cut, last, n)) == cut
  {
    Partition(cut, last);
  }

  /** Of an image one octet longer than 65536 full packets one octet is sent. */
  lemma OneOctetSent(image: seq<Byte>, commands: nat, h5: bool, last: nat)
    requires |image| == 0xfc0001 && last == Last(commands, |Cut(image)|, h5)
    ensures last < 0xffff && Joined(Pkts(Cut(image), last, Rounds(last))) == image[..1]
  {
    OneOver(|image|);
    LastNear(commands, |Cut(image)|, h5);
    Wrapped(0, last);
    CutSent(Cut(image), last, Rounds(last));
  }

  // ----- The loop -----

  /** Counting in 16 bits does not change the remainder modulo 8. */
  lemma Narrow(x: nat)
    ensures x % 0x10000 % 8 == x % 8
  {}

  /** The loop's own count of data and empty packets, in the source's 16 bits. */
  method Count(size: nat, commands: nat, h5: bool) returns (endIdx: nat, total: nat, lastLen: nat)
    requires size >= 1 && commands < 0x10000
    ensures endIdx == EndIdx(CutSize(size)) && lastLen == CutSize(size) - endIdx * CHUNK
    ensures total == Last(commands, CutSize(size), h5) % 0x10000
  {
    EndIdxLast(size);
    endIdx := (size - 1) / CHUNK % 0x10000;
    lastLen := size % CHUNK;
    var num := (commands + endIdx + 1) % 0x10000;
    Narrow(commands + endIdx + 1);
    var add := if num % 8 != 0 then 8 - num % 8 else 0;
    if h5 {
      if add != 0 {
        add := add - 1;
      } else {
        add := add + 7;
      }
    } else {
      add := 0;
    }
    total := (add + endIdx) % 0x10000;
    if lastLen == 0 {
      lastLen := CHUNK;
    }
  }

  /** Where the packet for step `i` comes from: an index, a place in the image, and a length. */
  lemma StepChunk(image: seq<Byte>, endIdx: nat, lastLen: nat, i: nat)
    requires image != [] && endIdx == EndIdx(|image|) && lastLen == |image| - endIdx * CHUNK
    ensures 0 < lastLen <= CHUNK
    ensures i < endIdx ==> (i + 1) * CHUNK <= |image| && image[i * CHUNK..i * CHUNK + CHUNK] == Chunk(image, i)
    ensures i == endIdx ==> image[i * CHUNK..i * CHUNK + lastLen] == Chunk(image, i)
    ensures i > endIdx ==> Chunk(image, i) == []
  {
    EndIdxLast(|image|);
  }

  lemma SlicePrefix(cut: seq<Byte>, image: seq<Byte>, from: nat, to: nat)
    requires cut <= image && from <= to <= |cut|
    ensures image[from..to] == cut[from..to]
  {}

  /** The running index and its successor. */
  function Rolled(j: nat): nat {
    if j == 0x7f then 1 else j + 1
  }

  lemma RolledIndex(i: nat)
    ensures Rolled(Index(i)) == Index(i + 1)
  {}

  /** The counts a download goes by, and the part of the image and the last number they stand for. */
  predicate Planned(cut: seq<Byte>, last: nat, endIdx: nat, total: nat, lastLen: nat) {
    && cut != [] && endIdx == EndIdx(|cut|) < 0x10000 && lastLen == |cut| - endIdx * CHUNK
    && endIdx <= last <= endIdx + 7 && total == last % 0x10000
  }

  /**
   * One round: the packet with running index `j`, and where the buffer pointer goes. The pointer is
   * advanced by comparing the index octet, which wraps, with the last data packet's number.
   */
  method Round(image: seq<Byte>, endIdx: nat, total: nat, lastLen: nat, i: nat, j: nat, at: Option<nat>,
               ghost cut: seq<Byte>, ghost last: nat)
    returns (pkt: Pkt, next: Option<nat>)
    requires cut <= image && Planned(cut, last, endIdx, total, lastLen)
    requires i <= total && j == Index(i) && (i <= endIdx ==> at == Some(i * CHUNK))
    ensures pkt == PktAt(cut, last, i)
    ensures i + 1 <= endIdx ==> next == Some((i + 1) * CHUNK)
  {
    Wrapped(endIdx, last);
    StepChunk(cut, endIdx, lastLen, i);
    var index, len, from := j, 0, at;
    if i < endIdx {
      len := CHUNK;
      SlicePrefix(cut, image, i * CHUNK, i * CHUNK + CHUNK);
    } else if i == endIdx {
      index := if i == total then j + 0x80 else j;
      len := lastLen;
      SlicePrefix(cut, image, i * CHUNK, i * CHUNK + lastLen);
    } else {
      index := if i == total then j + 0x80 else j;
      from := None;
    }
    pkt := Pkt(index, if from.Some? then image[from.value..from.value + len] else []);
    next := if index < endIdx && from.Some? then Some(from.value + CHUNK) else from;
  }

  lemma PktsOne(image: seq<Byte>, total: nat, i: nat)
    ensures Pkts(image, total, i) + [PktAt(image, total, i)] == Pkts(image, total, i + 1)
  {}

  /** The first `n` packets were confirmed. */
  ghost predicate Confirmed(answers: nat -> bool, n: nat) {
    forall k :: 0 <= k < n ==> answers(k)
  }

  /**
   * All packets sent; one not confirmed; or the 16-bit loop counter back at zero with its bound at
   * 0xffff, so that the loop begins again.
   */
  datatype Outcome = Sent(sent: seq<Pkt>) | Failed(sent: seq<Pkt>) | Again(sent: seq<Pkt>)

  /** What a download of the packets up to number `last` comes to. */
  ghost predicate ComesTo(r: Outcome, cut: seq<Byte>, last: nat, answers: nat -> bool) {
    if r.Failed? then
      && 0 < |r.sent| <= Rounds(last) && r.sent == Pkts(cut, last, |r.sent|)
      && Confirmed(answers, |r.sent| - 1) && !answers(|r.sent| - 1)
    else
      && Confirmed(answers, Rounds(last)) && r.sent == Pkts(cut, last, Rounds(last))
      && (r.Again? <==> last == 0xffff)
  }

  /** Before round `i`: the running index, the buffer pointer and the packets sent. */
  predicate Sending(cut: seq<Byte>, last: nat, endIdx: nat, i: nat, idx: nat, at: Option<nat>, sent: seq<Pkt>) {
    idx == Index(i) && (i <= endIdx ==> at == Some(i * CHUNK)) && sent == Pkts(cut, last, i)
  }

  method SendRound(image: seq<Byte>, endIdx: nat, total: nat, lastLen: nat, i: nat, idx: nat, at: Option<nat>, sent: seq<Pkt>,
                   ghost cut: seq<Byte>, ghost last: nat)
    returns (idx': nat, at': Option<nat>, sent': seq<Pkt>)
    requires cut <= image && Planned(cut, last, endIdx, total, lastLen)
    requires i <= total && Sending(cut, last, endIdx, i, idx, at, sent)
    ensures Sending(cut, last, endIdx, i + 1, idx', at', sent')
  {
    RolledIndex(i);
    PktsOne(cut, last, i);
    var pkt;
    pkt, at' := Round(image, endIdx, total, lastLen, i, idx, at, cut, last);
    idx', sent' := Rolled(idx), sent + [pkt];
  }

  /** The bound is 0xffff exactly if it stands for the number 0xffff. */
  lemma Full(endIdx: nat, last: nat, total: nat)
    requires endIdx < 0x10000 && endIdx <= last <= endIdx + 7 && total == last % 0x10000
    ensures total < 0x10000 && Rounds(last) == total + 1 && (total == 0xffff <==> last == 0xffff)
  {}

  /** Sends packets until one is not confirmed. */
  method SendAll(image: seq<Byte>, endIdx: nat, total: nat, lastLen: nat, answers: nat -> bool,
                 ghost cut: seq<Byte>, ghost last: nat)
    returns (r: Outcome)
    requires cut <= image && Planned(cut, last, endIdx, total, lastLen)
    ensures ComesTo(r, cut, last, answers)
  {
    Full(endIdx, last, total);
    var sent, i, idx := [], 0, 0;
    var at: Option<nat> := Some(0);
    while i <= total
      invariant i <= total + 1 && i < 0x10000 && Confirmed(answers, i) && Sending(cut, last, endIdx, i, idx, at, sent)
      decreases total + 1 - i
    {
      idx, at, sent := SendRound(image, endIdx, total, lastLen, i, idx, at, sent, cut, last);
      if !answers(i) {
        return Failed(sent);
      }
      if i == 0xffff {
        return Again(sent);
      }
      i := i + 1;
    }
    r := Sent(sent);
  }

  /**
   * The download. `answers(i)` is whether packet `i` is confirmed; the first that is not ends it.
   */
  method Download(image: seq<Byte>, commands: nat, h5: bool, answers: nat -> bool) returns (r: Outcome)
    requires image != [] && commands < 0x10000
    ensures ComesTo(r, Cut(image), Last(commands, |Cut(image)|, h5), answers)
    ensures r.Sent? && Joined(r.sent) == image
       <==> Last(commands, |image|, h5) < 0xffff && Confirmed(answers, Last(commands, |image|, h5) + 1)
  {
    ghost var cut := Cut(image);
    ghost var last := Last(commands, |cut|, h5);
    var endIdx, total, lastLen := Count(|image|, commands, h5);
    LastNear(commands, |cut|, h5);
    r := SendAll(image, endIdx, total, lastLen, answers, cut, last);
    WholeImage(image, commands, h5, last);
    if Last(commands, |image|, h5) < 0xffff {
      CutWhole(image, commands, h5);
    }
  }

  lemma CutWhole(image: seq<Byte>, commands: nat, h5: bool)
    requires image != [] && Last(commands, |image|, h5) < 0xffff
    ensures Cut(image) == image && Rounds(Last(commands, |image|, h5)) == Last(commands, |image|, h5) + 1
  {}

  /** Every packet before the last data packet is full, with 252 octets, and that one is not empty. */
  lemma FullChunks(image: seq<Byte>, i: nat)
    requires image != []
    ensures i < EndIdx(|image|) ==> |Chunk(image, i)| == 252
    ensures i == EndIdx(|image|) ==> 1 <= |Chunk(image, i)| <= 252
    ensures i > EndIdx(|image|) ==> Chunk(image, i) == []
  {
    EndIdxLast(|image|);
  }
}
