/** What the receiver makes of the octets the sender writes, however they are cut into chunks. */
module H5RoundTrip {
  import opened Bytes
  import opened H5Link
  import opened H5Codec
  import Crc

  // ----- Chunks -----

  /** With memory to spare, reading two chunks is reading their concatenation. */
  lemma {:induction false} RecvChunks(h: H5, a: seq<Byte>, b: seq<Byte>)
    requires RxOk(h.rx)
    ensures Recv(h, a + b, None) == Recv(Recv(h, a, None), b, None)
    decreases |a|, Rank(h.rx)
  {
    if a == [] {
      assert a + b == b;
    } else if Due(h.rx) {
      RecvChunks(Settle(h), a, b);
    } else if h.rx.state == Start && a[0] != DELIM {
      RecvChunks(h.(rx := Begin), a, b);
    } else {
      assert (a + b)[1..] == a[1..] + b;
      RecvChunks(h.(rx := Eat(h.rx, a[0])), a[1..], b);
    }
  }

  function Flat(chunks: seq<seq<Byte>>): seq<Byte> {
    if chunks == [] then [] else Flat(chunks[..|chunks| - 1]) + chunks[|chunks| - 1]
  }

  /** One call of the receive routine per chunk. */
  function RecvEach(h: H5, chunks: seq<seq<Byte>>): (r: H5)
    requires RxOk(h.rx)
    ensures RxOk(r.rx)
  {
    if chunks == [] then h
    else Recv(RecvEach(h, chunks[..|chunks| - 1]), chunks[|chunks| - 1], None)
  }

  lemma {:induction false} AnyChunking(h: H5, chunks: seq<seq<Byte>>)
    requires RxOk(h.rx)
    ensures RecvEach(h, chunks) == Recv(h, Flat(chunks), None)
  {
    if chunks != [] {
      var front, last := chunks[..|chunks| - 1], chunks[|chunks| - 1];
      AnyChunking(h, front);
      RecvChunks(h, Flat(front), last);
    }
  }

  // ----- One escaped octet, then many -----

  lemma RecvOne(h: H5, b: Byte)
    requires RxOk(h.rx) && !Due(h.rx) && (h.rx.state == Start ==> b == DELIM)
    ensures Recv(h, [b], None) == h.(rx := Eat(h.rx, b))
  {
    assert [b][1..] == [];
  }

  lemma EatPlain(rx: Rx, c: Byte)
    requires RxOk(rx) && rx.count > 0 && !rx.esc && SlipByte(c) == [c]
    ensures Eat(rx, c) == Put(rx, c)
  {}

  lemma EatEscaped(rx: Rx, b: Byte, c: Byte)
    requires RxOk(rx) && rx.count > 0 && rx.esc && Unescape(b) == Some(c)
    ensures Eat(rx, b) == Put(rx.(esc := false), c)
  {}

  lemma EatSlipByte(rx: Rx, c: Byte, s: seq<Byte>)
    requires RxOk(rx) && rx.count > 0 && !rx.esc && s == SlipByte(c)
    ensures |s| == 1 ==> Eat(rx, s[0]) == Put(rx, c)
    ensures |s| == 2 ==> Eat(rx, s[0]) == rx.(esc := true) && Eat(rx.(esc := true), s[1]) == Put(rx, c)
  {
    if |s| == 1 {
      EatPlain(rx, c);
    } else {
      EatEscaped(rx.(esc := true), s[1], c);
    }
  }

  lemma RecvSlipByte(h: H5, c: Byte)
    requires RxOk(h.rx) && h.rx.count > 0 && !h.rx.esc
    ensures Recv(h, SlipByte(c), None) == h.(rx := Put(h.rx, c))
  {
    var s := SlipByte(c);
    EatSlipByte(h.rx, c, s);
    if |s| == 1 {
      assert s == [s[0]];
      RecvOne(h, s[0]);
    } else {
      RecvTwo(h, h.(rx := h.rx.(esc := true)), s[0], s[1]);
      assert s == [s[0], s[1]];
    }
  }

  lemma RecvTwo(h: H5, h1: H5, b: Byte, c: Byte)
    requires RxOk(h.rx) && !Due(h.rx) && h.rx.state != Start && h1 == h.(rx := Eat(h.rx, b))
    requires !Due(h1.rx) && h1.rx.state != Start
    ensures Recv(h, [b, c], None) == h1.(rx := Eat(h1.rx, c))
  {
    RecvOne(h, b);
    RecvOne(h1, c);
    RecvChunks(h, [b], [c]);
    assert [b] + [c] == [b, c];
  }

  /** The receiver after the octets `xs`. */
  function PutAll(rx: Rx, xs: seq<Byte>): (r: Rx)
    requires |xs| <= rx.count
    ensures r.state == rx.state && r.count == rx.count - |xs| && r.skb == rx.skb + xs
    ensures !rx.esc ==> !r.esc
  {
    if xs == [] then rx else Put(PutAll(rx, xs[..|xs| - 1]), xs[|xs| - 1])
  }

  lemma {:induction false} RecvSlip(h: H5, xs: seq<Byte>)
    requires RxOk(h.rx) && |xs| <= h.rx.count && !h.rx.esc
    ensures Recv(h, Slip(xs), None) == h.(rx := PutAll(h.rx, xs))
  {
    if xs != [] {
      var front, last := xs[..|xs| - 1], xs[|xs| - 1];
      RecvSlip(h, front);
      RecvChunks(h, Slip(front), SlipByte(last));
      RecvSlipByte(Recv(h, Slip(front), None), last);
    }
  }

  /** The check register runs along exactly when the first octet says so and the trailer is not reached. */
  lemma {:induction false} PutAllCrc(rx: Rx, xs: seq<Byte>)
    requires |xs| <= rx.count && rx.skb + xs != []
    requires rx.state != Check
    ensures PutAll(rx, xs).crc == if HasCrc(rx.skb + xs) then Crc.Sum(rx.crc, xs) else rx.crc
  {
    if xs != [] {
      var front, last := xs[..|xs| - 1], xs[|xs| - 1];
      var was := PutAll(rx, front);
      assert was.skb + [last] == rx.skb + xs && front + [last] == xs;
      Crc.FeedOne(Crc.Step, rx.crc, front, last);
      if rx.skb + front == [] {
        assert front == [] && was == rx;
      } else {
        PutAllCrc(rx, front);
        assert (rx.skb + front)[0] == (rx.skb + xs)[0];
      }
    }
  }

  lemma {:induction false} SlipLast(m: seq<Byte>, c: Byte)
    ensures Slip(m + [c]) == Slip(m) + SlipByte(c)
  {
    assert (m + [c])[..|m|] == m;
  }

  lemma Assoc(x: seq<Byte>, y: seq<Byte>, z: seq<Byte>)
    ensures x + (y + z) == x + y + z
  {}

  lemma {:induction false} SlipConcat(a: seq<Byte>, b: seq<Byte>)
    ensures Slip(a + b) == Slip(a) + Slip(b)
  {
    if b == [] {
      assert a + b == a;
    } else {
      var front, c := b[..|b| - 1], b[|b| - 1];
      assert b == front + [c];
      assert a + b == (a + front) + [c];
      SlipConcat(a, front);
      SlipLast(a + front, c);
      SlipLast(front, c);
      Assoc(Slip(a), Slip(front), SlipByte(c));
    }
  }

  // ----- The header -----

  lemma FlagFields(f: Frame, h0: int)
    requires h0 == f.ack * 8 + (if f.rel then 0x80 + f.seqno else 0) + (if f.crc then 0x40 else 0)
    requires !f.rel ==> f.seqno == 0
    ensures h0 % 8 == f.seqno && h0 / 8 % 8 == f.ack
    ensures (h0 / 0x40 % 2 == 1) == f.crc && (h0 / 0x80 == 1) == f.rel
  {}

  lemma LengthFields(n: nat, chan: nat, h1: int, h2: int)
    requires chan < 16 && h1 == n % 16 * 16 + chan && h2 == n / 16
    ensures h1 % 16 == chan && h1 / 16 + h2 * 16 == n
  {}

  /** Reading a written header gives back every field, and the length. */
  lemma HeaderRoundTrip(f: Frame, skb: seq<Byte>)
    requires Sendable(f) && skb == Header(f) + f.data
    ensures Parsed(skb) == f && PayloadLen(skb) == |f.data|
    ensures HasCrc(skb) == f.crc && IsRel(skb) == f.rel
    ensures Checksum(skb[0], skb[1], skb[2]) == skb[3]
  {
    FlagFields(f, skb[0]);
    LengthFields(|f.data|, f.chan, skb[1], skb[2]);
    assert skb[4..] == f.data;
  }

  // ----- Whole frames -----

  /** Outside a frame everything up to the next delimiter is ignored. */
  lemma {:induction false} Skip(h: H5, s: seq<Byte>)
    requires RxOk(h.rx) && h.rx.state == Delimiter
    requires forall k :: 0 <= k < |s| ==> s[k] != DELIM
    ensures Recv(h, s, None) == h
  {
    if s != [] {
      Skip(h, s[1..]);
    }
  }

  lemma SettleFirst(h: H5, s: seq<Byte>)
    requires RxOk(h.rx) && Due(h.rx) && s != []
    ensures Recv(h, s, None) == Recv(Settle(h), s, None)
  {}

  /** From the start of a frame, the escaped header leaves a due receiver holding it. */
  lemma RecvHeader(h: H5, f: Frame)
    requires RxOk(h.rx) && h.rx.state == Start && Sendable(f)
    ensures var r := Recv(h, Slip(Header(f)), None);
      && r.link == h.link && RxOk(r.rx) && r.rx.state == Hdr && r.rx.count == 0 && !r.rx.esc
      && r.rx.skb == Header(f)
      && r.rx.crc == if f.crc then Crc.Sum(Crc.Init, Header(f)) else Crc.Init
  {
    var b := h.(rx := Begin);
    var s := Slip(Header(f));
    assert Recv(h, s, None) == Recv(b, s, None);
    RecvSlip(b, Header(f));
    PutAllCrc(Begin, Header(f));
    assert [] + Header(f) == Header(f);
    HeaderRoundTrip(f, Header(f) + f.data);
  }

  /** An admitted header opens the payload; the payload is read with the register running along. */
  lemma RecvPayload(h: H5, f: Frame)
    requires RxOk(h.rx) && Sendable(f)
    requires h.rx.state == Data && h.rx.skb == Header(f) && h.rx.count == |f.data| && !h.rx.esc
    requires h.rx.crc == if f.crc then Crc.Sum(Crc.Init, Header(f)) else Crc.Init
    ensures var r := Recv(h, Slip(f.data), None);
      && r.link == h.link && RxOk(r.rx) && r.rx.state == Data && r.rx.count == 0 && !r.rx.esc
      && r.rx.skb == Header(f) + f.data
      && r.rx.crc == if f.crc then Crc.Sum(Crc.Init, Header(f) + f.data) else Crc.Init
  {
    RecvSlip(h, f.data);
    PutAllCrc(h.rx, f.data);
    HeaderRoundTrip(f, Header(f) + f.data);
    SumConcat(Crc.Init, Header(f), f.data);
  }

  lemma {:induction false} SumConcat(reg: bv16, a: seq<Byte>, b: seq<Byte>)
    ensures Crc.Sum(reg, a + b) == Crc.Sum(Crc.Sum(reg, a), b)
  {
    FeedConcat(Crc.Step, reg, a, b);
  }

  lemma {:induction false} FeedConcat<R(!new), D>(g: (R, D) -> R, reg: R, a: seq<D>, b: seq<D>)
    ensures Crc.Feed(g, reg, a + b) == Crc.Feed(g, Crc.Feed(g, reg, a), b)
  {
    if b == [] {
      assert a + b == a;
    } else {
      assert (a + b)[..|a + b| - 1] == a + b[..|b| - 1];
      FeedConcat(g, reg, a, b[..|b| - 1]);
    }
  }

  lemma {:induction false} PutAllCheck(rx: Rx, xs: seq<Byte>)
    requires |xs| <= rx.count && rx.state == Check
    ensures PutAll(rx, xs).crc == rx.crc
  {
    if xs != [] {
      PutAllCheck(rx, xs[..|xs| - 1]);
    }
  }

  /** Back at the delimiter that closes a frame. */
  lemma RecvDelim(h: H5)
    requires RxOk(h.rx) && h.rx.state == Delimiter
    ensures Recv(h, [DELIM], None) == h.(rx := h.rx.(state := Start))
  {
    RecvOne(h, DELIM);
  }

  /** Whether check octets `t` match a frame; without the check there are none. */
  predicate Checked(f: Frame, t: seq<Byte>)
    requires Sendable(f) && |t| == if f.crc then 2 else 0
  {
    f.crc ==> Crc.Reverse(Crc.Sum(Crc.Init, Header(f) + f.data)) == Crc.Join(t[0], t[1])
  }

  /** What arriving with check octets `t` does: dropped out of order, dropped as damaged, or received. */
  function Judged(l: Link, f: Frame, t: seq<Byte>): Link
    requires Sendable(f) && |t| == if f.crc then 2 else 0
  {
    if !Admits(l, f) then OutOfOrder(l)
    else if Checked(f, t) then Finish(Accept(l, f), f)
    else l
  }

  /** The trailer decides. */
  lemma RecvTrailer(h: H5, f: Frame, m: seq<Byte>, t: seq<Byte>)
    requires RxOk(h.rx) && Sendable(f) && f.crc && m == Header(f) + f.data && |t| == 2
    requires h.rx.state == Check && h.rx.skb == m && h.rx.count == 2 && !h.rx.esc
    requires h.rx.crc == Crc.Sum(Crc.Init, m)
    ensures var r := Recv(h, Slip(t) + [DELIM], None);
      r.link == (if Checked(f, t) then Finish(Accept(h.link, f), f) else h.link) && r.rx.state == Start
  {
    RecvSlip(h, t);
    PutAllCheck(h.rx, t);
    var h1 := Recv(h, Slip(t), None);
    RecvChunks(h, Slip(t), [DELIM]);
    SettleFirst(h1, [DELIM]);
    assert h1.rx.skb[..|m|] == m && h1.rx.skb[|m|] == t[0] && h1.rx.skb[|m| + 1] == t[1];
    HeaderRoundTrip(f, m);
    assert Checked(f, t) ==> Settle(h1) == Complete(h1, m);
    RecvDelim(Settle(h1));
  }

  /** The rest of a frame after an admitted header. */
  lemma RecvBody(h: H5, f: Frame, t: seq<Byte>)
    requires RxOk(h.rx) && Sendable(f) && |t| == if f.crc then 2 else 0
    requires h.rx.state == Data && h.rx.skb == Header(f) && h.rx.count == |f.data| && !h.rx.esc
    requires h.rx.crc == if f.crc then Crc.Sum(Crc.Init, Header(f)) else Crc.Init
    ensures var r := Recv(h, Slip(f.data) + (Slip(t) + [DELIM]), None);
      r.link == (if Checked(f, t) then Finish(Accept(h.link, f), f) else h.link) && r.rx.state == Start
  {
    var m := Header(f) + f.data;
    RecvPayload(h, f);
    var h1 := Recv(h, Slip(f.data), None);
    RecvChunks(h, Slip(f.data), Slip(t) + [DELIM]);
    SettleFirst(h1, Slip(t) + [DELIM]);
    HeaderRoundTrip(f, m);
    if f.crc {
      RecvTrailer(Settle(h1), f, m, t);
    } else {
      assert Slip(t) + [DELIM] == [DELIM];
      RecvDelim(Settle(h1));
    }
  }

  /** From the start of a frame, with any check octets, up to and including the closing delimiter. */
  lemma RecvOctets(h: H5, f: Frame, t: seq<Byte>)
    requires RxOk(h.rx) && h.rx.state == Start && Sendable(f) && |t| == if f.crc then 2 else 0
    ensures var r := Recv(h, Slip(Header(f) + f.data + t) + [DELIM], None);
      r.link == Judged(h.link, f, t) && r.rx.state == Start
  {
    var m := Header(f) + f.data;
    var rest := Slip(f.data) + (Slip(t) + [DELIM]);
    SlipConcat(Header(f), f.data);
    SlipConcat(m, t);
    Regroup(Slip(Header(f)), Slip(f.data), Slip(t), [DELIM]);
    RecvHeader(h, f);
    var h1 := Recv(h, Slip(Header(f)), None);
    RecvChunks(h, Slip(Header(f)), rest);
    SettleFirst(h1, rest);
    var h2 := Settle(h1);
    HeaderAlone(f, m);
    if Admits(h.link, f) {
      RecvBody(h2, f, t);
    } else {
      RecvRejected(h2, Slip(f.data), Slip(t));
    }
  }

  /**
   * From the start of a frame, the octets the sender writes have exactly the effect of the frame,
   * and leave the receiver at the start of the next one.
   */
  lemma RecvFrame(h: H5, f: Frame)
    requires RxOk(h.rx) && h.rx.state == Start && Sendable(f)
    ensures var r := Recv(h, Slip(Content(f)) + [DELIM], None);
      r.link == Receive(h.link, f) && r.rx.state == Start
  {
    var m := Header(f) + f.data;
    var t := if f.crc then Crc.Trailer(Crc.Sum(Crc.Init, m)) else [];
    assert Content(f) == m + t;
    if f.crc {
      Crc.TrailerJoin(Crc.Sum(Crc.Init, m));
    }
    RecvOctets(h, f, t);
  }

  lemma Regroup(x: seq<Byte>, y: seq<Byte>, z: seq<Byte>, w: seq<Byte>)
    ensures x + y + z + w == x + (y + (z + w))
  {}

  lemma RecvRejected(h: H5, a: seq<Byte>, b: seq<Byte>)
    requires RxOk(h.rx) && h.rx.state == Delimiter
    requires forall k :: 0 <= k < |a| ==> a[k] != DELIM
    requires forall k :: 0 <= k < |b| ==> b[k] != DELIM
    ensures Recv(h, a + (b + [DELIM]), None) == h.(rx := h.rx.(state := Start))
  {
    assert a + (b + [DELIM]) == a + b + [DELIM];
    Skip(h, a + b);
    RecvChunks(h, a + b, [DELIM]);
    RecvDelim(h);
  }

  /** The header alone already carries every field that admission depends on. */
  lemma HeaderAlone(f: Frame, m: seq<Byte>)
    requires Sendable(f) && m == Header(f) + f.data
    ensures var p := Parsed(Header(f)); p.rel == f.rel && p.seqno == f.seqno
    ensures PayloadLen(Header(f)) == |f.data|
    ensures Checksum(Header(f)[0], Header(f)[1], Header(f)[2]) == Header(f)[3]
  {
    HeaderRoundTrip(f, m);
  }

  // ----- Streams of frames -----

  /** The frames of a stream take effect one after the other. */
  function ReceiveAll(l: Link, fs: seq<Frame>): Link {
    if fs == [] then l else Receive(ReceiveAll(l, fs[..|fs| - 1]), fs[|fs| - 1])
  }

  /** The octets written for a stream of frames. */
  function Wire(fs: seq<Frame>): seq<Byte>
    requires forall f :: f in fs ==> Sendable(f)
  {
    if fs == [] then [] else Wire(fs[..|fs| - 1]) + Encode(fs[|fs| - 1])
  }

  /** One delimiter brings any receiver to the start of a frame, whatever memory there is. */
  lemma Resync(h: H5, mem: Option<nat>)
    requires RxOk(h.rx)
    ensures var r := Recv(h, [DELIM], mem); r.rx.state == Start && r.rx.count == 0
    decreases Rank(h.rx)
  {
    if Due(h.rx) {
      Resync(Settle(h), mem);
    } else {
      assert [DELIM][1..] == [];
    }
  }

  lemma Bracket(g: seq<Byte>, x: seq<Byte>, d: Byte)
    ensures g + ([d] + x + [d]) == g + [d] + (x + [d])
  {}

  lemma EncodeAfter(g: seq<Byte>, f: Frame, gd: seq<Byte>, body: seq<Byte>)
    requires Sendable(f) && gd == g + [DELIM] && body == Slip(Content(f)) + [DELIM]
    ensures g + Encode(f) == gd + body
  {
    Bracket(g, Slip(Content(f)), DELIM);
  }

  lemma ToStart(h: H5, g: seq<Byte>, gd: seq<Byte>)
    requires RxOk(h.rx) && gd == g + [DELIM]
    ensures var r := Recv(h, gd, None); RxOk(r.rx) && r.rx.state == Start
  {
    RecvChunks(h, g, [DELIM]);
    Resync(Recv(h, g, None), None);
  }

  lemma FrameAfter(h: H5, gd: seq<Byte>, body: seq<Byte>, f: Frame, h1: H5)
    requires RxOk(h.rx) && Sendable(f) && body == Slip(Content(f)) + [DELIM]
    requires h1 == Recv(h, gd, None) && RxOk(h1.rx) && h1.rx.state == Start
    ensures var r := Recv(h, gd + body, None); r.link == Receive(h1.link, f) && r.rx.state == Start
  {
    RecvChunks(h, gd, body);
    RecvFrame(h1, f);
  }

  /** A frame after anything at all is received as if nothing had come before it. */
  lemma AfterGarbage(h: H5, g: seq<Byte>, f: Frame)
    requires RxOk(h.rx) && Sendable(f)
    ensures var r := Recv(h, g + Encode(f), None);
      r.link == Receive(Recv(h, g + [DELIM], None).link, f) && r.rx.state == Start
  {
    var gd, body := g + [DELIM], Slip(Content(f)) + [DELIM];
    EncodeAfter(g, f, gd, body);
    ToStart(h, g, gd);
    FrameAfter(h, gd, body, f, Recv(h, gd, None));
  }

  /** A complete frame, met between frames. */
  lemma RecvEncoded(h: H5, f: Frame)
    requires RxOk(h.rx) && (h.rx.state == Start || h.rx.state == Delimiter) && Sendable(f)
    ensures var r := Recv(h, Encode(f), None); r.link == Receive(h.link, f) && r.rx.state == Start
  {
    AfterGarbage(h, [], f);
    assert [] + Encode(f) == Encode(f) && [] + [DELIM] == [DELIM];
    RecvOne(h, DELIM);
  }

  lemma {:induction false} RecvWire(h: H5, fs: seq<Frame>)
    requires RxOk(h.rx) && (h.rx.state == Start || h.rx.state == Delimiter)
    requires forall f :: f in fs ==> Sendable(f)
    ensures var r := Recv(h, Wire(fs), None);
      && r.link == ReceiveAll(h.link, fs)
      && (if fs == [] then r == h else r.rx.state == Start)
  {
    if fs != [] {
      var front, last := fs[..|fs| - 1], fs[|fs| - 1];
      RecvWire(h, front);
      RecvChunks(h, Wire(front), Encode(last));
      RecvEncoded(Recv(h, Wire(front), None), last);
    }
  }

  /**
   * However the octets of a stream are cut into chunks, receiving the chunks has exactly the effect
   * of the frames, and the receiver ends between frames.
   */
  lemma RoundTrip(h: H5, fs: seq<Frame>, chunks: seq<seq<Byte>>)
    requires RxOk(h.rx) && (h.rx.state == Start || h.rx.state == Delimiter)
    requires forall f :: f in fs ==> Sendable(f)
    requires Flat(chunks) == Wire(fs)
    ensures var r := RecvEach(h, chunks);
      && r.link == ReceiveAll(h.link, fs)
      && (if fs == [] then r == h else r.rx.state == Start)
  {
    AnyChunking(h, chunks);
    RecvWire(h, fs);
  }

  // ----- Shape and size -----

  /**
   * A written frame fits the buffer allocated for it, delimiters stand only at its ends, and the
   * flow-control octets never occur.
   */
  lemma EncodeShape(f: Frame)
    requires Sendable(f)
    ensures var s := Encode(f);
      && 2 <= |s| <= (|f.data| + 6) * 2 + 2
      && s[0] == DELIM && s[|s| - 1] == DELIM
      && (forall k :: 0 < k < |s| - 1 ==> s[k] != DELIM)
      && 0x11 !in s && 0x13 !in s
  {
    assert |Content(f)| <= |f.data| + 6;
  }

  /** The packet being assembled never outgrows its buffer. */
  lemma RxBound(h: H5, s: seq<Byte>, mem: Option<nat>)
    requires RxOk(h.rx)
    ensures var rx := Recv(h, s, mem).rx;
      rx.state == Hdr || rx.state == Data || rx.state == Check ==> |rx.skb| + rx.count <= 0x1005
  {}

  // ----- Damage -----

  /**
   * A frame damaged within two adjacent payload octets delivers nothing and acknowledges nothing;
   * at most it provokes the acknowledgement an out-of-order frame provokes.
   */
  lemma DamagedPayload(h: H5, f: Frame, w: seq<Byte>, i: nat)
    requires RxOk(h.rx) && h.rx.state == Start && Sendable(f) && f.crc
    requires w != f.data && i < |w| && Alike(w, f.data, 0, i)
    ensures var t := Crc.Trailer(Crc.Sum(Crc.Init, Header(f) + f.data));
      var r := Recv(h, Slip(Header(f) + w + t) + [DELIM], None);
      && r.link == (if Admits(h.link, f) then h.link else OutOfOrder(h.link))
      && r.rx.state == Start
  {
    var g := f.(data := w);
    var s, s', t := Crc.Sum(Crc.Init, Header(f) + f.data), Crc.Sum(Crc.Init, Header(f) + w), Crc.Trailer(Crc.Sum(Crc.Init, Header(f) + f.data));
    SameHeader(f, g, w);
    DamagedSum(Header(f), f.data, w, i);
    Mismatch(s, s', t);
    RecvOctets(h, g, t);
  }

  lemma SameHeader(f: Frame, g: Frame, w: seq<Byte>)
    requires Sendable(f) && g == f.(data := w) && |w| == |f.data|
    ensures Sendable(g) && Header(g) == Header(f)
  {}

  lemma DamagedSum(p: seq<Byte>, d: seq<Byte>, w: seq<Byte>, i: nat)
    requires w != d && i < |w| && Alike(w, d, 0, i)
    ensures Crc.Sum(Crc.Init, p + d) != Crc.Sum(Crc.Init, p + w)
  {
    assert (p + d)[|p|..] == d && (p + w)[|p|..] == w;
    Crc.BurstDetected(Crc.Init, p + d, p + w, |p| + i);
  }

  /** Check octets that are not the ones sent are refused. */
  lemma DamagedTrailer(h: H5, f: Frame, t: seq<Byte>)
    requires RxOk(h.rx) && h.rx.state == Start && Sendable(f) && f.crc && |t| == 2
    requires t != Crc.Trailer(Crc.Sum(Crc.Init, Header(f) + f.data))
    ensures var r := Recv(h, Slip(Header(f) + f.data + t) + [DELIM], None);
      && r.link == (if Admits(h.link, f) then h.link else OutOfOrder(h.link))
      && r.rx.state == Start
  {
    RecvOctets(h, f, t);
    var s := Crc.Trailer(Crc.Sum(Crc.Init, Header(f) + f.data));
    Crc.TrailerJoin(Crc.Sum(Crc.Init, Header(f) + f.data));
    assert s[0] != t[0] || s[1] != t[1];
    Crc.JoinDistinct(s[0], s[1], t[0], t[1]);
  }

  /** A payload damaged in its last octet with a trailer damaged in its first. */
  lemma DamagedBorder(h: H5, f: Frame, w: seq<Byte>, t: seq<Byte>)
    requires RxOk(h.rx) && h.rx.state == Start && Sendable(f) && f.crc && |t| == 2
    requires |w| == |f.data| && w != f.data && w[..|w| - 1] == f.data[..|w| - 1]
    requires t[1] == Crc.Trailer(Crc.Sum(Crc.Init, Header(f) + f.data))[1]
    ensures var r := Recv(h, Slip(Header(f) + w + t) + [DELIM], None);
      && r.link == (if Admits(h.link, f) then h.link else OutOfOrder(h.link))
      && r.rx.state == Start
  {
    var g, n := f.(data := w), |w| - 1;
    var front, a, b := Header(f) + w[..n], f.data[n], w[n];
    SameHeader(f, g, w);
    LastApart(f.data, w, n);
    LastOff(Header(f), f.data, n);
    LastOff(Header(f), w, n);
    Crc.BorderDetected(Crc.Init, front, a, b, t[0]);
    RecvOctets(h, g, t);
  }

  lemma LastApart(d: seq<Byte>, w: seq<Byte>, n: nat)
    requires |w| == |d| == n + 1 && w != d && w[..n] == d[..n]
    ensures d[n] != w[n]
  {
    assert d == d[..n] + [d[n]] && w == w[..n] + [w[n]];
  }

  lemma LastOff(p: seq<Byte>, d: seq<Byte>, n: nat)
    requires |d| == n + 1
    ensures p + d == p + d[..n] + [d[n]]
  {}

  /**
   * Damage within two adjacent octets anywhere behind the header, payload, check octets or both, is
   * always noticed: nothing is delivered and nothing acknowledged.
   */
  lemma DamagedFrame(h: H5, f: Frame, w: seq<Byte>, t: seq<Byte>, i: nat)
    requires RxOk(h.rx) && h.rx.state == Start && Sendable(f) && f.crc && |w| == |f.data| && |t| == 2
    requires var s := Crc.Trailer(Crc.Sum(Crc.Init, Header(f) + f.data));
      w + t != f.data + s && Alike(w + t, f.data + s, 0, i)
    ensures var r := Recv(h, Slip(Header(f) + w + t) + [DELIM], None);
      && r.link == (if Admits(h.link, f) then h.link else OutOfOrder(h.link))
      && r.rx.state == Start
  {
    var s := Crc.Trailer(Crc.Sum(Crc.Init, Header(f) + f.data));
    if w == f.data {
      DamagedTrailer(h, f, t);
    } else {
      Parted(f.data, s, w, t, i);
      if t == s {
        DamagedPayload(h, f, w, i);
      } else {
        DamagedBorder(h, f, w, t);
      }
    }
  }

  /** Alike but for octet `i` and the one behind it, counted from `from`. */
  predicate Alike(x: seq<Byte>, y: seq<Byte>, from: nat, i: nat) {
    |x| == |y| && forall k :: 0 <= k < |x| && from + k != i && from + k != i + 1 ==> x[k] == y[k]
  }

  lemma AlikeParts(d: seq<Byte>, s: seq<Byte>, w: seq<Byte>, t: seq<Byte>, i: nat)
    requires |w| == |d| && |s| == |t| && Alike(w + t, d + s, 0, i)
    ensures Alike(w, d, 0, i) && Alike(t, s, |w|, i)
  {
    var x, y := w + t, d + s;
    forall k | 0 <= k < |w| && k != i && k != i + 1 ensures w[k] == d[k] {
      assert x[k] == y[k];
    }
    forall k | 0 <= k < |t| && |w| + k != i && |w| + k != i + 1 ensures t[k] == s[k] {
      assert x[|w| + k] == y[|w| + k];
    }
  }

  lemma AlikeAll(x: seq<Byte>, y: seq<Byte>, i: nat)
    requires Alike(x, y, 0, i) && i >= |x|
    ensures x == y
  {}

  lemma AlikeTrailer(s: seq<Byte>, t: seq<Byte>, n: nat, i: nat)
    requires |s| == |t| == 2 && Alike(t, s, n, i) && t != s && i < n
    ensures i + 1 == n && t[1] == s[1]
  {
    assert n + 1 != i && n + 1 != i + 1 ==> t[1] == s[1];
    assert t == [t[0], t[1]] && s == [s[0], s[1]];
  }

  lemma AlikeFront(w: seq<Byte>, d: seq<Byte>, i: nat)
    requires Alike(w, d, 0, i) && i + 1 == |w|
    ensures w[..i] == d[..i]
  {}

  /** Where two adjacent octets can be if the payload is damaged, and if the trailer is too. */
  lemma Parted(d: seq<Byte>, s: seq<Byte>, w: seq<Byte>, t: seq<Byte>, i: nat)
    requires |w| == |d| && |s| == |t| == 2 && w != d && Alike(w + t, d + s, 0, i)
    ensures i < |w| && Alike(w, d, 0, i)
    ensures t != s ==> t[1] == s[1] && w[..|w| - 1] == d[..|w| - 1]
  {
    AlikeParts(d, s, w, t, i);
    if i >= |w| {
      AlikeAll(w, d, i);
    }
    if t != s {
      AlikeTrailer(s, t, |w|, i);
      AlikeFront(w, d, i);
    }
  }

  lemma Mismatch(r: bv16, q: bv16, t: seq<Byte>)
    requires r != q && t == Crc.Trailer(r)
    ensures Crc.Reverse(q) != Crc.Join(t[0], t[1])
  {
    Crc.TrailerJoin(r);
    Crc.ReverseTwice(r, Crc.Reverse(r));
    Crc.ReverseTwice(q, Crc.Reverse(q));
  }
}
