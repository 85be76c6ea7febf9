/** The four header octets: what they say, and what becomes of a frame whose header is damaged. */
module H5Header {
  import opened Bytes
  import opened H5Link
  import opened H5Codec
  import H5RoundTrip

  /** Four octets as a number below 1021. */
  function Added(h: seq<Byte>): nat
    requires |h| == 4
  {
    var a: int, b: int, c: int, d: int := h[0], h[1], h[2], h[3];
    a + b + c + d
  }

  /** Where the fields stand in a written header, and that its octets add up to 0xff modulo 256. */
  lemma Layout(f: Frame)
    requires Sendable(f)
    ensures var h := Header(f);
      && h[0] % 8 == f.seqno && h[0] / 8 % 8 == f.ack && (h[0] / 64 % 2 == 1 <==> f.crc) && (h[0] / 128 == 1 <==> f.rel)
      && h[1] % 16 == f.chan && h[1] / 16 == |f.data| % 16 && h[2] == |f.data| / 16
      && Added(h) % 256 == 255
  {
    var h := Header(f);
    H5RoundTrip.FlagFields(f, h[0]);
    H5RoundTrip.LengthFields(|f.data|, f.chan, h[1], h[2]);
    SumRight(h);
  }

  /** The channel numbers and the reliability of the packet types, as the three-wire transport layer assigns them. */
  lemma Channels(l: Link, p: Packet)
    requires |p.data| <= 4095
    ensures var h := Header(Framed(l, p));
      && h[1] % 16 == (match p.kind
           case Ack => 0 case Command => 1 case Acl => 2 case Sco => 3 case Event => 4 case Vendor => 14 case LinkEst => 15)
      && (h[0] / 128 == 1 <==> p.kind == Command || p.kind == Acl || p.kind == Event)
      && h[0] / 8 % 8 == l.rxseq && (h[0] / 64 % 2 == 1 <==> l.useCrc)
  {
    Layout(Framed(l, p));
  }

  /** From the start of a frame, four escaped octets leave the receiver holding them. */
  lemma FourOctets(h: H5, hd: seq<Byte>)
    requires RxOk(h.rx) && h.rx.state == Start && |hd| == 4
    ensures var r := Recv(h, Slip(hd), None);
      r.link == h.link && RxOk(r.rx) && r.rx.state == Hdr && r.rx.count == 0 && !r.rx.esc && r.rx.skb == hd
  {
    var b, s := h.(rx := Begin), Slip(hd);
    Opens(h, b, s);
    H5RoundTrip.RecvSlip(b, hd);
    Collected(hd);
  }

  /** A frame begins with the first octet that is not a delimiter. */
  lemma Opens(h: H5, b: H5, s: seq<Byte>)
    requires RxOk(h.rx) && h.rx.state == Start && s != [] && s[0] != DELIM && b == h.(rx := Begin)
    ensures Recv(h, s, None) == Recv(b, s, None)
  {}

  lemma Collected(hd: seq<Byte>)
    requires |hd| == 4
    ensures var rx := H5RoundTrip.PutAll(Begin, hd); RxOk(rx) && rx.state == Hdr && rx.count == 0 && !rx.esc && rx.skb == hd
  {
    assert [] + hd == hd;
  }

  /** A header that does not add up is given up at once, and nothing else happens. */
  lemma GivenUp(h: H5)
    requires RxOk(h.rx) && h.rx.state == Hdr && h.rx.count == 0 && Added(h.rx.skb) % 256 != 255
    ensures Settle(h).link == h.link && Settle(h).rx.state == Delimiter && Settle(h).rx.count == 0
  {
    SumRight(h.rx.skb);
    assert Settle(h) == h.(rx := GiveUp(h.rx));
  }

  lemma SumRight(hd: seq<Byte>)
    requires |hd| == 4
    ensures Checksum(hd[0], hd[1], hd[2]) == hd[3] <==> Added(hd) % 256 == 255
  {
    Complement(hd[0], hd[1], hd[2], hd[3]);
  }

  lemma Complement(a: int, b: int, c: int, d: int)
    requires 0 <= d < 256
    ensures d == 255 - (a + b + c) % 256 <==> (a + b + c + d) % 256 == 255
  {}

  lemma Regrouped(a: seq<Byte>, b: seq<Byte>, d: seq<Byte>)
    ensures a + b + d == a + (b + d) && [] + (b + d) == b + d
  {}

  /** Whatever follows such a header, up to the next delimiter, leaves the link as it was. */
  lemma HeaderRefused(h: H5, hd: seq<Byte>, rest: seq<Byte>)
    requires RxOk(h.rx) && h.rx.state == Start && |hd| == 4 && Added(hd) % 256 != 255
    ensures var r := Recv(h, Slip(hd + rest) + [DELIM], None); r.link == h.link && r.rx.state == Start
  {
    H5RoundTrip.SlipConcat(hd, rest);
    var tail := Slip(rest) + [DELIM];
    Regrouped(Slip(hd), Slip(rest), [DELIM]);
    FourOctets(h, hd);
    H5RoundTrip.RecvChunks(h, Slip(hd), tail);
    var h1 := Recv(h, Slip(hd), None);
    H5RoundTrip.SettleFirst(h1, tail);
    GivenUp(h1);
    H5RoundTrip.RecvRejected(Settle(h1), [], Slip(rest));
  }

  lemma OneApart(h: seq<Byte>, j: nat, x: Byte)
    requires |h| == 4 && j < 4 && x != h[j] && Added(h) % 256 == 255
    ensures Added(h[j := x]) % 256 != 255
  {
    var g := h[j := x];
    assert Added(g) - Added(h) == x - h[j];
  }

  /** So a single damaged octet in the header is always noticed, whatever else the frame holds. */
  lemma DamagedHeader(h: H5, f: Frame, j: nat, x: Byte, rest: seq<Byte>)
    requires RxOk(h.rx) && h.rx.state == Start && Sendable(f) && j < 4 && x != Header(f)[j]
    ensures var r := Recv(h, Slip(Header(f)[j := x] + rest) + [DELIM], None); r.link == h.link && r.rx.state == Start
  {
    Layout(f);
    OneApart(Header(f), j, x);
    HeaderRefused(h, Header(f)[j := x], rest);
  }

  /** Conversely a header that adds up is judged by its number alone, and announces the payload. */
  lemma HeaderTaken(h: H5)
    requires RxOk(h.rx) && h.rx.state == Hdr && h.rx.count == 0 && Added(h.rx.skb) % 256 == 255
    ensures var skb, r := h.rx.skb, Settle(h);
      var h1: int, h2: int := skb[1], skb[2];
      if skb[0] >= 128 && skb[0] % 8 != h.link.rxseq then
        r.rx.state == Delimiter && r.link.ackReq && r.link.wakes > h.link.wakes && r.link.up == h.link.up && r.link.rxseq == h.link.rxseq
      else r.link == h.link && r.rx.state == Data && r.rx.count == h1 / 16 + 16 * h2
  {
    SumRight(h.rx.skb);
  }
}
