/**
 * Two H5 endpoints joined by two first-in-first-out lines that may lose frames. Every interleaving
 * of submitting, sending, arriving, finishing a received frame, losing, and retransmitting is a run.
 */
module H5Network {
  import opened Bytes
  import opened H5Link
  import H5Codec

  /**
   * A frame on the line. The rest is bookkeeping no endpoint can see: where the packet stands in its
   * sender's stream, how many packets the sender had accepted when it was framed, and for a packet of
   * the unreliable queue its place among those ever queued there.
   */
  datatype Flight = Flight(frame: Frame, pos: nat, ackPos: nat, place: Option<nat>)

  /**
   * An endpoint. `busy` is a frame between the two locked sections of accepting it; `fired` is the
   * retransmission work started but not yet holding its lock. The rest is history: packets queued
   * for reliable delivery, how many of them are acknowledged, one past the highest ever framed, how
   * many reliable frames were accepted, the acknowledgement field of the last frame prepared, packets
   * queued for unreliable delivery, how many of them were framed, and the places of those accepted.
   */
  datatype Node = Node(link: Link, busy: Option<Flight>, fired: bool,
                       queued: seq<Packet>, base: nat, high: nat, taken: nat, lastAck: Seqno,
                       loose: seq<Packet>, gone: nat, heard: seq<nat>)

  datatype Net = Net(a: Node, b: Node, ab: seq<Flight>, ba: seq<Flight>)

  datatype Side = A | B

  /**
   * One atomic step of an endpoint. `Submit` is the driver's enqueue, `Report` that of a controller;
   * `Lose` removes the i-th frame travelling towards the endpoint.
   */
  datatype Action =
    | Submit(p: Packet)
    | Report(p: Packet)
    | Send(mem: (bool, bool, bool))
    | Arrive
    | Finish
    | Lose(i: nat)
    | Fire
    | RollBack

  datatype Move = Move(side: Side, act: Action)

  function NewNode(useCrc: bool): Node {
    Node(Opened(useCrc), None, false, [], 0, 0, 0, 0, [], 0, [])
  }

  function NewNet(crcA: bool, crcB: bool): Net {
    Net(NewNode(crcA), NewNode(crcB), [], [])
  }

  function Flip(s: Net): Net {
    Net(s.b, s.a, s.ba, s.ab)
  }

  function Max(x: nat, y: nat): nat {
    if x < y then y else x
  }

  // ----- The steps -----

  predicate Loose(k: Kind) {
    k == Sco || k == LinkEst || k == Ack || k == Vendor
  }

  /** The history of queueing: reliably, loosely, or not at all. */
  function Noted(n: Node, link: Link, p: Packet, rel: bool, loose: bool): Node {
    n.(link := link, queued := if rel then n.queued + [p] else n.queued, loose := if loose then n.loose + [p] else n.loose)
  }

  /** A host sends data and commands reliably, and never more than 4095 octets at a time. */
  function SubmitStep(n: Node, p: Packet): Node {
    var fits := |p.data| <= 4095;
    Noted(n, Enqueue(n.link, p), p, fits && (p.kind == Acl || p.kind == Command), fits && Loose(p.kind))
  }

  /** A controller queues data and events where a host queues data and commands. */
  function Reported(l: Link, p: Packet): Link {
    if |p.data| > 4095 || p.kind == Command then l
    else if p.kind == Acl || p.kind == Event then l.(rel := l.rel + [p])
    else l.(unrel := l.unrel + [p])
  }

  function ReportStep(n: Node, p: Packet): Node {
    var fits := |p.data| <= 4095;
    Noted(n, Reported(n.link, p), p, fits && (p.kind == Acl || p.kind == Event), fits && Loose(p.kind))
  }

  /** Where the next reliable packet stands in the stream. */
  function Next(n: Node): nat {
    n.base + |n.link.unack|
  }

  function Sent(n: Node, mem: (bool, bool, bool)): seq<Flight> {
    var f := Dequeue(n.link, mem).0;
    if f.Some? then [Flight(f.value, Next(n), n.taken, if LooseNext(n, mem) then Some(n.gone) else None)] else []
  }

  /** The next frame is the first packet of the unreliable queue. */
  predicate LooseNext(n: Node, mem: (bool, bool, bool)) {
    n.link.unrel != [] && mem.0
  }

  function SendStep(n: Node, mem: (bool, bool, bool)): Node {
    var d := Dequeue(n.link, mem);
    if d.0.None? then n
    else n.(link := d.1, lastAck := d.0.value.ack, high := if d.0.value.rel then Max(n.high, Next(n) + 1) else n.high,
            gone := if LooseNext(n, mem) then n.gone + 1 else n.gone)
  }

  function ArriveStep(n: Node, x: Flight): Node {
    if !Admits(n.link, x.frame) then n.(link := OutOfOrder(n.link))
    else n.(link := Accept(n.link, x.frame), busy := Some(x), taken := if x.frame.rel then n.taken + 1 else n.taken,
            heard := if x.place.Some? then n.heard + [x.place.value] else n.heard)
  }

  function FinishStep(n: Node): Node
    requires n.busy.Some?
  {
    var gone := CullCount(|n.link.unack|, n.link.txseq, n.link.rxack);
    n.(link := H5Link.Finish(n.link, n.busy.value.frame), busy := None, base := n.base + gone)
  }

  function FireStep(n: Node): Node {
    if n.link.timer && !n.fired then n.(fired := true, link := n.link.(timer := false)) else n
  }

  function RollBackStep(n: Node): Node {
    if n.fired then n.(fired := false, link := H5Link.RollBack(n.link)) else n
  }

  /** One step of endpoint `a`; a step that is not enabled changes nothing. */
  function StepA(s: Net, act: Action): Net {
    match act
    case Submit(p) => s.(a := SubmitStep(s.a, p))
    case Report(p) => s.(a := ReportStep(s.a, p))
    case Send(mem) => s.(a := SendStep(s.a, mem), ab := s.ab + Sent(s.a, mem))
    case Arrive =>
      if s.a.busy.None? && s.ba != [] then s.(a := ArriveStep(s.a, s.ba[0]), ba := s.ba[1..]) else s
    case Finish => if s.a.busy.Some? then s.(a := FinishStep(s.a)) else s
    case Lose(i) => if i < |s.ba| then s.(ba := s.ba[..i] + s.ba[i + 1..]) else s
    case Fire => s.(a := FireStep(s.a))
    case RollBack => s.(a := RollBackStep(s.a))
  }

  function Step(s: Net, m: Move): Net {
    if m.side == A then StepA(s, m.act) else Flip(StepA(Flip(s), m.act))
  }

  /** The state after a run. */
  function Run(s: Net, moves: seq<Move>): Net {
    if moves == [] then s else Step(Run(s, moves[..|moves| - 1]), moves[|moves| - 1])
  }

  // ----- What every reachable state satisfies -----

  predicate RelPacket(p: Packet) {
    (p.kind == Acl || p.kind == Command || p.kind == Event) && |p.data| <= MAX_PAYLOAD
  }

  predicate UnrelPacket(p: Packet) {
    !Reliable(p.kind) && |p.data| <= MAX_PAYLOAD
  }

  /** The reliable packets among those handed up. */
  function RelOnly(s: seq<Packet>): seq<Packet> {
    if s == [] then [] else
      var p := s[|s| - 1];
      RelOnly(s[..|s| - 1]) + if Reliable(p.kind) then [p] else []
  }

  /** The reliable packet a frame carries, if any. */
  function Payload(f: Frame): seq<Packet> {
    var k := PassedAs(f);
    if k.Some? && Reliable(k.value) then [Packet(k.value, f.data)] else []
  }

  /** Reliable packets accepted: handed up, or about to be. */
  function Got(n: Node): seq<Packet> {
    RelOnly(n.link.up) + if n.busy.Some? then Payload(n.busy.value.frame) else []
  }

  /** Acknowledged, unacknowledged and waiting packets are the stream, cut at the right numbers. */
  predicate SenderOk(n: Node) {
    && n.base <= Next(n) <= n.high <= n.base + WINDOW
    && n.high <= |n.queued|
    && n.link.txseq == Next(n) % 8
    && n.queued[n.base..] == n.link.unack + n.link.rel
    && (forall i :: 0 <= i < |n.queued| ==> RelPacket(n.queued[i]))
    && (forall i :: 0 <= i < |n.link.unrel| ==> UnrelPacket(n.link.unrel[i]))
  }

  /** Nothing owed is forgotten: retransmission is armed, and the last frame acknowledged everything. */
  predicate NothingForgotten(n: Node) {
    && (n.link.unack != [] ==> n.link.timer || n.fired)
    && (!n.link.ackReq ==> n.lastAck == n.link.rxseq)
  }

  /** A reliable flight carries the packet at its position under that position's number. */
  predicate Carries(q: seq<Packet>, high: nat, x: Flight) {
    && x.pos < high <= |q|
    && x.frame.seqno == x.pos % 8
    && Payload(x.frame) == [q[x.pos]]
  }

  /** Reliable frames under way stay within four places below and three above what is expected. */
  predicate DataOk(q: seq<Packet>, base: nat, high: nat, taken: nat, line: seq<Flight>) {
    && base <= taken <= high <= |q|
    && (forall i :: 0 <= i < |line| ==> H5Codec.Sendable(line[i].frame))
    && (forall i :: 0 <= i < |line| && line[i].frame.rel ==> Carries(q, high, line[i]) && taken <= line[i].pos + 4)
    && (forall i, j :: 0 <= i < j < |line| && line[i].frame.rel && line[j].frame.rel ==> line[i].pos <= line[j].pos + 3)
  }

  predicate AckFlight(base: nat, taken: nat, x: Flight) {
    x.frame.ack == x.ackPos % 8 && base <= x.ackPos <= taken
  }

  /** Acknowledgements under way never go back, and lie between the sender's and the receiver's count. */
  predicate AckOk(base: nat, taken: nat, line: seq<Flight>, busy: Option<Flight>, rxack: Seqno) {
    && (forall i :: 0 <= i < |line| ==> AckFlight(base, taken, line[i]))
    && (forall i, j :: 0 <= i < j < |line| ==> line[i].ackPos <= line[j].ackPos)
    && (busy.Some? ==>
          && AckFlight(base, taken, busy.value) && rxack == busy.value.frame.ack
          && forall i :: 0 <= i < |line| ==> busy.value.ackPos <= line[i].ackPos)
  }

  /** The receiver has taken exactly the first `taken` packets of the stream, in order. */
  predicate ReceiverOk(q: seq<Packet>, n: Node) {
    n.taken <= |q| && n.link.rxseq == n.taken % 8 && Got(n) == q[..n.taken]
  }

  /** One direction: `s` sends on `line`, `r` answers on `back`. */
  predicate Dir(s: Node, r: Node, line: seq<Flight>, back: seq<Flight>) {
    && SenderOk(s) && NothingForgotten(s)
    && DataOk(s.queued, s.base, s.high, r.taken, line)
    && AckOk(s.base, r.taken, back, s.busy, s.link.rxack)
    && ReceiverOk(s.queued, r)
  }

  predicate Inv(s: Net) {
    Dir(s.a, s.b, s.ab, s.ba) && Dir(s.b, s.a, s.ba, s.ab)
  }
}
