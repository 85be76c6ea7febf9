/**
 * The byte level of the H5 link layer: SLIP framing, packet header, data integrity check, and the
 * resumable receiver that undoes them.
 */
module H5Codec {
  import opened Bytes
  import opened H5Link
  import Crc

  const DELIM: Byte := 0xc0
  const ESC: Byte := 0xdb

  // ----- Sending -----

  /** One octet as it is written between delimiters. */
  function SlipByte(c: Byte): (s: seq<Byte>)
    ensures 1 <= |s| <= 2
    ensures forall k :: 0 <= k < |s| ==> s[k] != DELIM && s[k] != 0x11 && s[k] != 0x13
  {
    if c == 0xc0 then [0xdb, 0xdc]
    else if c == 0xdb then [0xdb, 0xdd]
    else if c == 0x11 then [0xdb, 0xde]
    else if c == 0x13 then [0xdb, 0xdf]
    else [c]
  }

  function Slip(m: seq<Byte>): (s: seq<Byte>)
    ensures |m| <= |s| <= 2 * |m|
    ensures forall k :: 0 <= k < |s| ==> s[k] != DELIM && s[k] != 0x11 && s[k] != 0x13
  {
    if m == [] then [] else Slip(m[..|m| - 1]) + SlipByte(m[|m| - 1])
  }

  /** A frame the header can carry; unreliable frames leave the sequence field clear. */
  predicate Sendable(f: Frame) {
    |f.data| <= MAX_PAYLOAD && f.chan < 16 && (!f.rel ==> f.seqno == 0)
  }

  /** The four header octets: flags and numbers, length and channel, and a checksum. */
  function Header(f: Frame): (h: seq<Byte>)
    requires Sendable(f)
    ensures |h| == 4
  {
    var h0 := f.ack * 8 + (if f.rel then 0x80 + f.seqno else 0) + (if f.crc then 0x40 else 0);
    var h1 := |f.data| % 16 * 16 + f.chan;
    var h2 := |f.data| / 16;
    [h0, h1, h2, Checksum(h0, h1, h2)]
  }

  function Checksum(h0: Byte, h1: Byte, h2: Byte): Byte {
    0xff - (h0 + h1 + h2) % 0x100
  }

  /** Everything between the delimiters, before escaping. */
  function Content(f: Frame): seq<Byte>
    requires Sendable(f)
  {
    var m := Header(f) + f.data;
    if f.crc then m + Crc.Trailer(Crc.Sum(Crc.Init, m)) else m
  }

  /** The octets written to the serial line for a frame. */
  function Encode(f: Frame): seq<Byte>
    requires Sendable(f)
  {
    [DELIM] + Slip(Content(f)) + [DELIM]
  }

  // ----- Receiving -----

  datatype RxState = Delimiter | Start | Hdr | Data | Check

  /** `skb` is the packet being assembled; it means nothing while looking for a frame. */
  datatype Rx = Rx(state: RxState, esc: bool, count: nat, skb: seq<Byte>, crc: bv16)

  /** The receiver and the link it reports to. */
  datatype H5 = H5(link: Link, rx: Rx)

  function Opened(useCrc: bool): H5 {
    H5(H5Link.Opened(useCrc), Rx(Delimiter, false, 0, [], Crc.Init))
  }

  predicate HasCrc(skb: seq<Byte>)
    requires skb != []
  {
    skb[0] / 0x40 % 2 == 1
  }

  predicate IsRel(skb: seq<Byte>)
    requires skb != []
  {
    skb[0] / 0x80 == 1
  }

  /** Appends one decoded octet, running it through the check unless it belongs to the trailer. */
  function Put(rx: Rx, c: Byte): Rx
    requires rx.count > 0
  {
    var skb := rx.skb + [c];
    rx.(skb := skb, esc := false, count := rx.count - 1,
        crc := if HasCrc(skb) && rx.state != Check then Crc.Step(rx.crc, c) else rx.crc)
  }

  /** What an octet after the escape octet stands for. */
  function Unescape(b: Byte): Option<Byte> {
    if b == 0xdc then Some(0xc0)
    else if b == 0xdd then Some(0xdb)
    else if b == 0xde then Some(0x11)
    else if b == 0xdf then Some(0x13)
    else None
  }

  /** Takes one octet inside a frame. */
  function Unslip(rx: Rx, b: Byte): Rx
    requires rx.count > 0
  {
    if !rx.esc then
      if b == ESC then rx.(esc := true) else Put(rx, b)
    else
      match Unescape(b)
      case Some(c) => Put(rx, c)
      case None => rx.(state := Delimiter, count := 0)
  }

  /** The frame a received header and payload describe. */
  function Parsed(skb: seq<Byte>): Frame
    requires |skb| >= 4
  {
    Frame(IsRel(skb), HasCrc(skb), skb[0] % 8, skb[0] / 8 % 8, skb[1] % 16, skb[4..])
  }

  /** The payload length a received header announces. */
  function PayloadLen(skb: seq<Byte>): nat
    requires |skb| >= 4
  {
    var low: int, high: int := skb[1], skb[2];
    low / 16 + high * 16
  }

  function GiveUp(rx: Rx): Rx {
    rx.(state := Delimiter, count := 0)
  }

  /** The header is complete: check it, check the sequence number, and expect the payload. */
  function AfterHdr(h: H5): H5
    requires |h.rx.skb| >= 4
  {
    var skb := h.rx.skb;
    if Checksum(skb[0], skb[1], skb[2]) != skb[3] then h.(rx := GiveUp(h.rx))
    else if !Admits(h.link, Parsed(skb)) then H5(OutOfOrder(h.link), GiveUp(h.rx))
    else h.(rx := h.rx.(state := Data, count := PayloadLen(skb)))
  }

  /** The packet is complete and sound: let the link have it. */
  function Complete(h: H5, skb: seq<Byte>): H5
    requires |skb| >= 4
  {
    var f := Parsed(skb);
    H5(Finish(Accept(h.link, f), f), h.rx.(state := Delimiter))
  }

  /** The payload is complete: expect the trailer, or finish. */
  function AfterData(h: H5): H5
    requires |h.rx.skb| >= 4
  {
    if HasCrc(h.rx.skb) then h.(rx := h.rx.(state := Check, count := 2)) else Complete(h, h.rx.skb)
  }

  /** The last two octets are the check octets of the register. */
  predicate TrailerOk(skb: seq<Byte>, crc: bv16)
    requires |skb| >= 2
  {
    Crc.Reverse(crc) == Crc.Join(skb[|skb| - 2], skb[|skb| - 1])
  }

  /** The trailer is complete: compare it and finish. */
  function AfterCheck(h: H5): H5
    requires |h.rx.skb| >= 6
  {
    var skb := h.rx.skb;
    if !TrailerOk(skb, h.rx.crc) then h.(rx := GiveUp(h.rx)) else Complete(h, skb[..|skb| - 2])
  }

  /**
   * What every reachable receiver satisfies: it counts down only inside a frame, and the packet
   * being assembled never outgrows the 0x1005 octets allocated for it.
   */
  predicate RxOk(rx: Rx) {
    match rx.state
    case Delimiter | Start => rx.count == 0
    case Hdr => |rx.skb| + rx.count == 4
    case Data => |rx.skb| >= 4 && |rx.skb| + rx.count == 4 + PayloadLen(rx.skb)
    case Check => |rx.skb| >= 4 && |rx.skb| + rx.count == 6 + PayloadLen(rx.skb)
  }

  /** Whether the receiver moves on before it looks at the next octet. */
  predicate Due(rx: Rx) {
    rx.count == 0 && (rx.state == Hdr || rx.state == Data || rx.state == Check)
  }

  /** The move it makes then. */
  function Settle(h: H5): (r: H5)
    requires RxOk(h.rx) && Due(h.rx)
    ensures RxOk(r.rx) && Rank(r.rx) < Rank(h.rx)
  {
    match h.rx.state
    case Hdr => AfterHdr(h)
    case Data => AfterData(h)
    case Check => AfterCheck(h)
  }

  /** How many such moves are still possible in a row. */
  function Rank(rx: Rx): nat {
    if rx.count > 0 then 0 else
    match rx.state
    case Delimiter => 0
    case Start => 1
    case Check => 1
    case Data => 2
    case Hdr => 3
  }

  /** Consumes one octet; a frame only opens through `Begin`. */
  function Eat(rx: Rx, b: Byte): (r: Rx)
    requires RxOk(rx) && !Due(rx)
    ensures RxOk(r)
  {
    if rx.count > 0 then
      if b == DELIM then rx.(state := Start, count := 0) else Unslip(rx, b)
    else if b == DELIM then rx.(state := Start)
    else rx
  }

  /** A fresh packet. */
  const Begin: Rx := Rx(Hdr, false, 4, [], Crc.Init)

  /** One buffer fewer, where they are counted. */
  function Spent(mem: Option<nat>): Option<nat>
    requires mem != Some(0)
  {
    if mem.Some? then Some(mem.value - 1) else None
  }

  /**
   * The receive routine on a chunk of octets. `mem` says how many packet buffers are still granted:
   * `None` is no limit, and a refused buffer ends the call with the rest of the chunk unread.
   */
  function Recv(h: H5, s: seq<Byte>, mem: Option<nat>): (r: H5)
    requires RxOk(h.rx)
    ensures RxOk(r.rx)
    decreases |s|, Rank(h.rx)
  {
    if s == [] then h
    else if Due(h.rx) then Recv(Settle(h), s, mem)
    else if h.rx.state == Start && s[0] != DELIM then
      if mem == Some(0) then h.(rx := GiveUp(Begin))
      else Recv(h.(rx := Begin), s, Spent(mem))
    else Recv(h.(rx := Eat(h.rx, s[0])), s[1..], mem)
  }
}
