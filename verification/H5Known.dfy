/** Known answers: octets on the line that do not depend on how they are computed here. */
module H5Known {
  import opened Bytes
  import opened H5Link
  import opened H5Codec
  import Crc

  // ----- The check register, in numbers -----

  lemma Nibble5(h1: bv16, r1: bv16)
    requires h1 == Crc.Nibble(0xffff, 0x58) && r1 == Crc.Nibble(h1, 0x5)
    ensures r1 == 0xd14a
  {}

  lemma Nibble0(h1: bv16, r1: bv16, h2: bv16, r2: bv16)
    requires h1 == Crc.Nibble(0xd14a, 0x00) && r1 == Crc.Nibble(h1, 0x0) && h2 == Crc.Nibble(r1, 0x00) && r2 == Crc.Nibble(h2, 0x0)
    ensures r2 == 0x7c12
  {}

  lemma NibbleA(h1: bv16, r1: bv16)
    requires h1 == Crc.Nibble(0x7c12, 0xa7) && r1 == Crc.Nibble(h1, 0xa)
    ensures r1 == 0xe25a
  {}

  /** The octets 58 00 00 a7 take the register from all ones to e25a. */
  lemma InNumbers(r1: bv16, r2: bv16, r3: bv16, r4: bv16)
    requires r1 == Crc.Update(0xffff, 0x58) && r2 == Crc.Update(r1, 0x00) && r3 == Crc.Update(r2, 0x00) && r4 == Crc.Update(r3, 0xa7)
    ensures r4 == 0xe25a
  {
    Nibble5(Crc.Nibble(0xffff, 0x58), r1);
    Nibble0(Crc.Nibble(r1, 0x00), r2, Crc.Nibble(r2, 0x00), r3);
    NibbleA(Crc.Nibble(r3, 0xa7), r4);
  }

  lemma Wide()
    ensures Crc.Octet(0x58) == 0x58 && Crc.Octet(0x00) == 0x00 && Crc.Octet(0xa7) == 0xa7
  {
    Crc.OctetOfWeigh(false, false, false, true, true, false, true, false);
    Crc.OctetOfWeigh(false, false, false, false, false, false, false, false);
    Crc.OctetOfWeigh(true, true, true, false, false, true, false, true);
  }

  lemma SumFour(reg: bv16, a: Byte, b: Byte, c: Byte, d: Byte)
    ensures Crc.Sum(reg, [a, b, c, d]) == Crc.Step(Crc.Step(Crc.Step(Crc.Step(reg, a), b), c), d)
  {
    Crc.FeedOne(Crc.Step, reg, [], a);
    Crc.FeedOne(Crc.Step, reg, [a], b);
    Crc.FeedOne(Crc.Step, reg, [a, b], c);
    Crc.FeedOne(Crc.Step, reg, [a, b, c], d);
    assert [] + [a] == [a] && [a] + [b] == [a, b] && [a, b] + [c] == [a, b, c] && [a, b, c] + [d] == [a, b, c, d];
  }

  lemma AckRegister()
    ensures Crc.Sum(Crc.Init, [0x58, 0x00, 0x00, 0xa7]) == 0xe25a
  {
    SumFour(Crc.Init, 0x58, 0x00, 0x00, 0xa7);
    Wide();
    var r1 := Crc.Update(0xffff, 0x58);
    var r2 := Crc.Update(r1, 0x00);
    var r3 := Crc.Update(r2, 0x00);
    InNumbers(r1, r2, r3, Crc.Update(r3, 0xa7));
  }

  lemma Reversed()
    ensures Crc.Reverse(0xe25a) == 0x5a47 && Crc.Low(0x5a47 >> 8) == 0x5a && Crc.Low(0x5a47) == 0x47
  {}

  // ----- Octets on the line -----

  lemma SlipFour(a: Byte, b: Byte, c: Byte, d: Byte)
    ensures Slip([a, b, c, d]) == SlipByte(a) + SlipByte(b) + SlipByte(c) + SlipByte(d)
  {
    assert [a][..0] == [] && [a, b][..1] == [a] && [a, b, c][..2] == [a, b] && [a, b, c, d][..3] == [a, b, c];
    assert Slip([a]) == SlipByte(a);
    assert Slip([a, b]) == SlipByte(a) + SlipByte(b);
    assert Slip([a, b, c]) == SlipByte(a) + SlipByte(b) + SlipByte(c);
  }

  lemma SlipSix(a: Byte, b: Byte, c: Byte, d: Byte, e: Byte, f: Byte)
    ensures Slip([a, b, c, d, e, f]) == SlipByte(a) + SlipByte(b) + SlipByte(c) + SlipByte(d) + SlipByte(e) + SlipByte(f)
  {
    SlipFour(a, b, c, d);
    assert [a, b, c, d, e, f][..5] == [a, b, c, d, e] && [a, b, c, d, e][..4] == [a, b, c, d];
    assert Slip([a, b, c, d, e]) == Slip([a, b, c, d]) + SlipByte(e);
  }

  /** The four octets that are escaped, and what for. */
  lemma Escapes()
    ensures Slip([0xc0, 0xdb, 0x11, 0x13]) == [0xdb, 0xdc, 0xdb, 0xdd, 0xdb, 0xde, 0xdb, 0xdf]
  {
    SlipFour(0xc0, 0xdb, 0x11, 0x13);
  }

  predicate Plain(c: Byte) {
    c != 0xc0 && c != 0xdb && c != 0x11 && c != 0x13
  }

  lemma PlainSix(a: Byte, b: Byte, c: Byte, d: Byte, e: Byte, f: Byte)
    requires Plain(a) && Plain(b) && Plain(c) && Plain(d) && Plain(e) && Plain(f)
    ensures Slip([a, b, c, d, e, f]) == [a, b, c, d, e, f]
  {
    SlipSix(a, b, c, d, e, f);
  }

  lemma Wrapped(f: Frame, m: seq<Byte>)
    requires Sendable(f) && Content(f) == m && Slip(m) == m
    ensures Encode(f) == [0xc0] + m + [0xc0]
  {}

  /** A link establishment packet with the octets of a synchronisation message. */
  lemma SyncOnLine(l: Link)
    requires l.rxseq == 0 && !l.useCrc
    ensures Encode(Framed(l, Packet(LinkEst, [0x01, 0x7e]))) == [0xc0, 0x00, 0x2f, 0x00, 0xd0, 0x01, 0x7e, 0xc0]
  {
    var f := Framed(l, Packet(LinkEst, [0x01, 0x7e]));
    assert Header(f) == [0x00, 0x2f, 0x00, 0xd0];
    PlainSix(0x00, 0x2f, 0x00, 0xd0, 0x01, 0x7e);
    Wrapped(f, [0x00, 0x2f, 0x00, 0xd0, 0x01, 0x7e]);
  }

  lemma AckTrailer(m: seq<Byte>)
    requires m == [0x58, 0x00, 0x00, 0xa7]
    ensures Crc.Trailer(Crc.Sum(Crc.Init, m)) == [0x5a, 0x47]
  {
    AckRegister();
    Reversed();
  }

  lemma AckContent(f: Frame, m: seq<Byte>)
    requires f == Frame(false, true, 0, 3, 0, []) && m == [0x58, 0x00, 0x00, 0xa7]
    ensures Content(f) == m + [0x5a, 0x47]
  {
    assert Header(f) == m;
    assert Header(f) + f.data == m;
    AckTrailer(m);
  }

  lemma AckEncoded(f: Frame, m: seq<Byte>)
    requires f == Frame(false, true, 0, 3, 0, []) && m == [0x58, 0x00, 0x00, 0xa7, 0x5a, 0x47]
    ensures Encode(f) == [0xc0] + m + [0xc0]
  {
    AckContent(f, m[..4]);
    assert m[..4] + [0x5a, 0x47] == m;
    PlainSix(m[0], m[1], m[2], m[3], m[4], m[5]);
    Wrapped(f, m);
  }

  /** A bare acknowledgement with a check, when frame 3 is expected. */
  lemma AckOnLine(l: Link)
    requires l.rxseq == 3 && l.useCrc
    ensures Encode(Framed(l, Packet(Ack, []))) == [0xc0, 0x58, 0x00, 0x00, 0xa7, 0x5a, 0x47, 0xc0]
  {
    AckEncoded(Framed(l, Packet(Ack, [])), [0x58, 0x00, 0x00, 0xa7, 0x5a, 0x47]);
  }
}
