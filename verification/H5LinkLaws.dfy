/** What the link's operations are for, said without saying how they do it. */
module H5LinkLaws {
  import opened Bytes
  import opened H5Link

  /**
   * A packet framed at one end comes up at the other as what it was, except acknowledgements and link
   * establishment, which end there; and nothing comes up of a frame that is out of order.
   */
  lemma ComesUp(l: Link, peer: Link, p: Packet)
    ensures var f := Framed(peer, p); var r := Receive(l, f);
      && PassedAs(f) == (if p.kind == Ack || p.kind == LinkEst then None else Some(p.kind))
      && r.up == (if Admits(l, f) && p.kind != Ack && p.kind != LinkEst then l.up + [p] else l.up)
  {}

  /** Only frames on these channels come up, and the reliable kinds only if sent reliably. */
  lemma NothingElse(f: Frame)
    ensures PassedAs(f).Some? <==> f.chan == 3 || f.chan == 14 || (f.rel && (f.chan == 1 || f.chan == 2 || f.chan == 4))
  {}

  /** Whoever gives the transmitter something to do also asks it to run: every frame received does, and every timeout. */
  lemma AsksForWork(l: Link, f: Frame)
    ensures Receive(l, f).wakes > l.wakes && (f.rel ==> Receive(l, f).ackReq)
    ensures RollBack(l).wakes > l.wakes && (l.unack != [] ==> CanSend(RollBack(l)))
  {}

  /** The two numbers of a roll-back: what was sent is to be sent again, under the same numbers. */
  lemma SentAgain(l: Link)
    ensures var r := RollBack(l);
      && r.unack == [] && r.rel == l.unack + l.rel && (r.txseq + |l.unack|) % 8 == l.txseq && r.unrel == l.unrel
      && r.rxseq == l.rxseq && r.ackReq == l.ackReq && r.up == l.up
  {}

  /**
   * The order of sending: a reliable packet goes out only with fewer than four unacknowledged and
   * nothing unreliable before it, a bare acknowledgement only when neither can go; every frame
   * acknowledges all that was received; and what cannot be sent stays.
   */
  lemma Priority(l: Link, mem: (bool, bool, bool))
    requires forall i :: 0 <= i < |l.rel| ==> Reliable(l.rel[i].kind)
    requires forall i :: 0 <= i < |l.unrel| ==> !Reliable(l.unrel[i].kind)
    ensures var (f, m) := Dequeue(l, mem);
      && (f.None? ==> m == l)
      && (f.Some? ==> f.value.ack == l.rxseq && !m.ackReq && f.value.crc == l.useCrc)
      && (f.Some? && f.value.rel ==>
            && |l.unack| < 4 && l.rel != [] && (l.unrel == [] || !mem.0)
            && m.unack == l.unack + [l.rel[0]] && m.rel == l.rel[1..] && m.timer && f.value.seqno == l.txseq)
      && (f.Some? && !f.value.rel ==> m.rel == l.rel && m.unack == l.unack && m.timer == l.timer && f.value.seqno == 0)
      && (f.Some? && !f.value.rel && m.unrel == l.unrel ==>
            && l.ackReq && f.value.data == [] && f.value.chan == 0
            && (l.unrel == [] || !mem.0) && (l.rel == [] || |l.unack| >= 4 || !mem.1))
  {}

  /** With all memory granted a frame goes out exactly if there is a reason for one. */
  lemma SomethingToSend(l: Link)
    ensures Dequeue(l, (true, true, true)).0.None? <==> l.unrel == [] && (l.rel == [] || |l.unack| >= 4) && !l.ackReq
  {}

  /** A freshly opened link has nothing to send, nothing to repeat and nothing handed up, and expects number zero. */
  lemma AtOpen(useCrc: bool)
    ensures var l := Opened(useCrc);
      && !CanSend(l) && l.rel == [] && l.unack == [] && !l.timer && l.up == [] && l.wakes == 0
      && l.txseq == 0 && l.rxseq == 0 && l.rxack == 0 && l.useCrc == useCrc
  {}

  /** What the driver queues for sending, and what it drops. */
  lemma QueuedAs(l: Link, p: Packet)
    ensures var r := Enqueue(l, p);
      && (|p.data| > 4095 || p.kind == Event <==> r == l)
      && (|p.data| <= 4095 && (p.kind == Acl || p.kind == Command) ==> r.rel == l.rel + [p] && r.unrel == l.unrel)
      && (|p.data| <= 4095 && p.kind != Acl && p.kind != Command && p.kind != Event ==> r.unrel == l.unrel + [p] && r.rel == l.rel)
  {}

  /** An acknowledgement that leaves nothing unacknowledged stops the timer; otherwise it goes on. */
  lemma TimerStops(l: Link, f: Frame)
    requires Admits(l, f)
    ensures Receive(l, f).unack == [] ==> !Receive(l, f).timer
    ensures Receive(l, f).unack != [] ==> Receive(l, f).timer == l.timer
  {}
}
