/**
 * The reliable-packet half of the H5 link layer: packet queues, sequence and acknowledgement
 * numbers, and what each locked section of the driver does to them.
 */
module H5Link {
  import opened Bytes

  /** Packet types the driver knows; `Chan` gives the three-wire channel of each. */
  datatype Kind = Command | Acl | Sco | Event | Ack | Vendor | LinkEst

  datatype Packet = Packet(kind: Kind, data: seq<Byte>)

  /** A frame as it travels: the fields of the four header octets, and the payload. */
  datatype Frame = Frame(rel: bool, crc: bool, seqno: Seqno, ack: Seqno, chan: nat, data: seq<Byte>)

  const WINDOW: nat := 4
  const MAX_PAYLOAD: nat := 0xFFF

  /**
   * The state shared by the transmit, receive and retransmission paths. `timer` is whether the
   * retransmission work is pending; `up` is everything handed to the HCI core, oldest first;
   * `wakes` counts the calls that ask the transmit worker to run.
   */
  datatype Link = Link(
    rel: seq<Packet>, unack: seq<Packet>, unrel: seq<Packet>,
    txseq: Seqno, rxseq: Seqno, rxack: Seqno, ackReq: bool, useCrc: bool,
    timer: bool, up: seq<Packet>, wakes: nat)

  /** The state a freshly opened device starts in. */
  function Opened(useCrc: bool): Link {
    Link([], [], [], 0, 0, 0, false, useCrc, false, [], 0)
  }

  function Chan(k: Kind): nat {
    match k
    case Ack => 0
    case Command => 1
    case Acl => 2
    case Sco => 3
    case Event => 4
    case Vendor => 14
    case LinkEst => 15
  }

  predicate Reliable(k: Kind) {
    k == Acl || k == Command || k == Event
  }

  /** Queues a packet for transmission; over-long packets and types not sent by a host are dropped. */
  function Enqueue(l: Link, p: Packet): Link {
    if |p.data| > MAX_PAYLOAD then l else
    match p.kind
    case Acl | Command => l.(rel := l.rel + [p])
    case Sco | LinkEst | Ack | Vendor => l.(unrel := l.unrel + [p])
    case Event => l
  }

  /** The frame made of a packet; it acknowledges everything received in order so far. */
  function Framed(l: Link, p: Packet): Frame {
    Frame(Reliable(p.kind), l.useCrc, if Reliable(p.kind) then l.txseq else 0, l.rxseq, Chan(p.kind), p.data)
  }

  /** What preparing a frame does to the link: the acknowledgement is no longer owed. */
  function Prepared(l: Link, p: Packet): Link {
    l.(ackReq := false, txseq := if Reliable(p.kind) then Succ(l.txseq) else l.txseq)
  }

  /** Where the next frame to send comes from. */
  datatype Source = FromUnrel | FromRel | BareAck | Nowhere

  /**
   * An unreliable packet goes first, then a reliable packet if the window is open, then a bare
   * acknowledgement if one is owed. The three flags say whether the buffer each attempt asks for is
   * granted.
   */
  function Choose(l: Link, mem: (bool, bool, bool)): Source {
    if l.unrel != [] && mem.0 then FromUnrel
    else if |l.unack| < WINDOW && l.rel != [] && mem.1 then FromRel
    else if l.ackReq && mem.2 then BareAck
    else Nowhere
  }

  /** Takes the next frame to send, if there is one. */
  function Dequeue(l: Link, mem: (bool, bool, bool)): (Option<Frame>, Link) {
    match Choose(l, mem)
    case FromUnrel =>
      (Some(Framed(l, l.unrel[0])), Prepared(l, l.unrel[0]).(unrel := l.unrel[1..]))
    case FromRel =>
      var p := l.rel[0];
      (Some(Framed(l, p)), Prepared(l, p).(rel := l.rel[1..], unack := l.unack + [p], timer := true))
    case BareAck =>
      var p := Packet(Ack, []);
      (Some(Framed(l, p)), Prepared(l, p))
    case Nowhere =>
      (None, l)
  }

  /** Whether a frame could be sent now, memory permitting. */
  predicate CanSend(l: Link) {
    l.unrel != [] || (|l.unack| < WINDOW && l.rel != []) || l.ackReq
  }

  /** How many of the `n` oldest unacknowledged packets an acknowledgement clears. */
  function CullCount(n: nat, txseq: Seqno, ack: Seqno): (r: nat)
    ensures r <= n
  {
    var behind := (txseq - ack) % 8;
    if behind <= n then n - behind else 0
  }

  /** Drops the packets the last received acknowledgement covers. */
  function Cull(l: Link): Link {
    var left := l.unack[CullCount(|l.unack|, l.txseq, l.rxack)..];
    l.(unack := left, timer := l.timer && left != [])
  }

  /** Whether a frame with a sound header is taken in: unreliable, or the next one expected. */
  predicate Admits(l: Link, f: Frame) {
    f.rel ==> f.seqno == l.rxseq
  }

  /** First locked section of accepting a frame: advance the expected number, owe an acknowledgement. */
  function Accept(l: Link, f: Frame): Link {
    l.(rxseq := if f.rel then Succ(l.rxseq) else l.rxseq, ackReq := l.ackReq || f.rel, rxack := f.ack)
  }

  /** A reliable frame that is not the next one is dropped, and the acknowledgement is repeated. */
  function OutOfOrder(l: Link): Link {
    l.(ackReq := true, wakes := l.wakes + 1)
  }

  /** The type under which a frame is handed up, if it is handed up at all. */
  function PassedAs(f: Frame): Option<Kind> {
    if f.chan == 2 && f.rel then Some(Acl)
    else if f.chan == 4 && f.rel then Some(Event)
    else if f.chan == 3 then Some(Sco)
    else if f.chan == 1 && f.rel then Some(Command)
    else if f.chan == 14 then Some(Vendor)
    else None
  }

  /** Wakes the transmitter and hands the payload up. */
  function HandedUp(l: Link, f: Frame): Link {
    var k := PassedAs(f);
    l.(wakes := l.wakes + 1, up := if k.Some? then l.up + [Packet(k.value, f.data)] else l.up)
  }

  /** Everything after the first locked section: clear acknowledged packets, wake, hand the payload up. */
  function Finish(l: Link, f: Frame): Link {
    HandedUp(Cull(l), f)
  }

  /** The effect of a whole well-formed frame. */
  function Receive(l: Link, f: Frame): Link {
    if Admits(l, f) then Finish(Accept(l, f), f) else OutOfOrder(l)
  }

  /** The retransmission work: everything unacknowledged goes back to the head of the queue. */
  function RollBack(l: Link): Link {
    l.(rel := l.unack + l.rel, unack := [], txseq := (l.txseq - |l.unack|) % 8, wakes := l.wakes + 1)
  }

  /** Packets a frame can carry. */
  predicate AllFit(q: seq<Packet>) {
    forall i :: 0 <= i < |q| ==> |q[i].data| <= MAX_PAYLOAD
  }

  predicate Fits(l: Link) {
    AllFit(l.rel) && AllFit(l.unack) && AllFit(l.unrel)
  }
}
