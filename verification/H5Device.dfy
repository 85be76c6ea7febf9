/** The driver's own form: one object whose fields the transmit, receive and timer paths update. */
module H5Device {
  import opened Bytes
  import opened H5Link
  import opened H5Codec
  import Crc

  // ----- Writing a frame into a buffer -----

  /** Appends one octet, escaped if need be, at `n`. */
  method SlipOneByte(buf: array<Byte>, n: nat, c: Byte) returns (k: nat)
    requires n + 2 <= buf.Length
    modifies buf
    ensures k == n + |SlipByte(c)| <= buf.Length
    ensures buf[..k] == old(buf[..n]) + SlipByte(c)
  {
    if c == 0xc0 {
      buf[n], buf[n + 1] := 0xdb, 0xdc;
      k := n + 2;
    } else if c == 0xdb {
      buf[n], buf[n + 1] := 0xdb, 0xdd;
      k := n + 2;
    } else if c == 0x11 {
      buf[n], buf[n + 1] := 0xdb, 0xde;
      k := n + 2;
    } else if c == 0x13 {
      buf[n], buf[n + 1] := 0xdb, 0xdf;
      k := n + 2;
    } else {
      buf[n] := c;
      k := n + 1;
    }
  }

  /** What a frame whose first octets are `done` looks like so far. */
  ghost function Begun(done: seq<Byte>): seq<Byte> {
    [DELIM] + Slip(done)
  }

  lemma RegisterOne(done: seq<Byte>, c: Byte, reg: bv16)
    requires reg == Crc.Sum(Crc.Init, done)
    ensures Crc.Sum(Crc.Init, done + [c]) == Crc.Step(reg, c)
  {
    Crc.FeedOne(Crc.Step, Crc.Init, done, c);
  }

  /** Appends one octet after those of `done`, and runs the check register over it if asked to. */
  method PutByte(buf: array<Byte>, n: nat, ghost done: seq<Byte>, c: Byte, crc: bool, reg: bv16)
    returns (k: nat, out: bv16)
    requires n + 2 <= buf.Length && buf[..n] == Begun(done)
    requires crc ==> reg == Crc.Sum(Crc.Init, done)
    modifies buf
    ensures n < k <= n + 2 && buf[..k] == Begun(done + [c])
    ensures out == if crc then Crc.Sum(Crc.Init, done + [c]) else reg
  {
    assert (done + [c])[..|done|] == done;
    k := SlipOneByte(buf, n, c);
    out := reg;
    if crc {
      RegisterOne(done, c, reg);
      out := Crc.Step(reg, c);
    }
  }

  /** `done` and the first `i` octets of `m`. */
  ghost function Upto(done: seq<Byte>, m: seq<Byte>, i: nat): (r: seq<Byte>)
    requires i <= |m|
    ensures i == 0 ==> r == done
    ensures i == |m| ==> r == done + m
  {
    done + m[..i]
  }

  lemma Snoc(done: seq<Byte>, m: seq<Byte>, i: nat)
    requires i < |m|
    ensures Upto(done, m, i) + [m[i]] == Upto(done, m, i + 1)
  {}

  /** Appends the octets of `m` after those of `done`. */
  method SlipAll(buf: array<Byte>, n: nat, ghost done: seq<Byte>, m: seq<Byte>, crc: bool, reg: bv16)
    returns (k: nat, out: bv16)
    requires n + 2 * |m| <= buf.Length && buf[..n] == Begun(done)
    requires crc ==> reg == Crc.Sum(Crc.Init, done)
    modifies buf
    ensures n <= k <= n + 2 * |m| && buf[..k] == Begun(done + m)
    ensures out == if crc then Crc.Sum(Crc.Init, done + m) else reg
  {
    k, out := n, reg;
    ghost var now := done;
    for i := 0 to |m|
      invariant n <= k <= n + 2 * i && now == Upto(done, m, i)
      invariant buf[..k] == Begun(now)
      invariant out == if crc then Crc.Sum(Crc.Init, now) else reg
    {
      Snoc(done, m, i);
      k, out := PutByte(buf, k, now, m[i], crc, out);
      now := now + [m[i]];
    }
  }

  /** The frame as octets, in a buffer of the size the driver allocates. */
  method WriteFrame(f: Frame) returns (buf: array<Byte>, n: nat)
    requires Sendable(f)
    ensures fresh(buf) && buf.Length == (|f.data| + 6) * 2 + 2
    ensures n <= buf.Length && buf[..n] == Encode(f)
  {
    buf := new Byte[(|f.data| + 6) * 2 + 2];
    buf[0] := DELIM;
    var reg;
    n, reg := SlipAll(buf, 1, [], Header(f), f.crc, Crc.Init);
    assert [] + Header(f) == Header(f);
    n, reg := SlipAll(buf, n, Header(f), f.data, f.crc, reg);
    if f.crc {
      n, reg := SlipAll(buf, n, Header(f) + f.data, Crc.Trailer(reg), false, reg);
    }
    buf[n] := DELIM;
    n := n + 1;
  }

  // ----- The device -----

  lemma OneBack(txseq: Seqno, ack: Seqno, seqno: Seqno, k: nat)
    requires seqno == (txseq - k) % 8 && (txseq - ack) % 8 >= k && ack != seqno
    ensures Pred(seqno) == (txseq - (k + 1)) % 8 && (txseq - ack) % 8 >= k + 1
  {}

  /** Counting back `n - left` numbers without a match, or to a match, finds the packets to keep. */
  lemma CountedBack(n: nat, left: nat, txseq: Seqno, ack: Seqno)
    requires left <= n && (txseq - ack) % 8 >= n - left
    requires left == 0 || ack == (txseq - (n - left)) % 8
    ensures left == CullCount(n, txseq, ack)
  {}

  lemma BackOne(u: seq<Packet>, r: seq<Packet>)
    requires u != []
    ensures u[..|u| - 1] + ([u[|u| - 1]] + r) == u + r
  {}

  /** The number `n` before `t`. */
  ghost function Before(t: Seqno, n: int): (r: Seqno)
    ensures n == 0 ==> r == t
  {
    (t - n) % 8
  }

  lemma OneMoreBefore(t: Seqno, n: int)
    ensures Pred(Before(t, n)) == Before(t, n + 1)
  {}

  lemma SettleFits(h: H5)
    requires RxOk(h.rx) && Due(h.rx) && H5Link.Fits(h.link)
    ensures H5Link.Fits(Settle(h).link)
  {}

  lemma RecvSettled(h: H5, s: seq<Byte>, mem: Option<nat>)
    requires RxOk(h.rx) && s != [] && Due(h.rx)
    ensures Recv(h, s, mem) == Recv(Settle(h), s, mem)
  {}

  lemma RecvOpened(h: H5, s: seq<Byte>, mem: Option<nat>)
    requires RxOk(h.rx) && s != [] && h.rx.state == Start && s[0] != DELIM
    ensures Recv(h, s, mem) == if mem == Some(0) then h.(rx := GiveUp(Begin))
      else Recv(h.(rx := Begin), s, Spent(mem))
  {}

  lemma RecvEaten(h: H5, s: seq<Byte>, mem: Option<nat>)
    requires RxOk(h.rx) && s != [] && !Due(h.rx) && (h.rx.state == Start ==> s[0] == DELIM)
    ensures Recv(h, s, mem) == Recv(h.(rx := Eat(h.rx, s[0])), s[1..], mem)
  {}

  class Device {
    var rel: seq<Packet>
    var unack: seq<Packet>
    var unrel: seq<Packet>
    var txseq: Seqno
    var rxseq: Seqno
    var rxack: Seqno
    var ackReq: bool
    var useCrc: bool
    var timer: bool
    var up: seq<Packet>
    var wakes: nat
    var state: RxState
    var esc: bool
    var count: nat
    var skb: seq<Byte>
    var crc: bv16

    function LinkView(): Link
      reads this
    {
      Link(rel, unack, unrel, txseq, rxseq, rxack, ackReq, useCrc, timer, up, wakes)
    }

    function RxView(): Rx
      reads this
    {
      Rx(state, esc, count, skb, crc)
    }

    predicate Fits()
      reads this`rel, this`unack, this`unrel
    {
      AllFit(rel) && AllFit(unack) && AllFit(unrel)
    }

    /** Queued packets fit a frame, and the receiver is in a reachable state. */
    predicate Valid()
      reads this
    {
      Fits() && RxOk(RxView())
    }

    constructor (withCrc: bool)
      ensures Valid() && LinkView() == H5Link.Opened(withCrc)
      ensures H5(LinkView(), RxView()) == H5Codec.Opened(withCrc)
    {
      rel, unack, unrel := [], [], [];
      txseq, rxseq, rxack := 0, 0, 0;
      ackReq, useCrc, timer := false, withCrc, false;
      up, wakes := [], 0;
      state, esc, count, skb, crc := Delimiter, false, 0, [], Crc.Init;
    }

    method Enqueue(p: Packet)
      requires Valid()
      modifies this
      ensures Valid() && LinkView() == H5Link.Enqueue(old(LinkView()), p) && RxView() == old(RxView())
    {
      if |p.data| > MAX_PAYLOAD {
        return;
      }
      match p.kind {
        case Acl | Command => rel := rel + [p];
        case Sco | LinkEst | Ack | Vendor => unrel := unrel + [p];
        case Event =>
      }
    }

    /** Frames a packet: takes the numbers, clears the owed acknowledgement, and writes the octets. */
    method PreparePkt(p: Packet) returns (buf: array<Byte>, n: nat)
      requires |p.data| <= MAX_PAYLOAD
      modifies this`ackReq, this`txseq
      ensures LinkView() == Prepared(old(LinkView()), p)
      ensures fresh(buf) && n <= buf.Length && buf[..n] == Encode(Framed(old(LinkView()), p))
    {
      var f := Framed(LinkView(), p);
      ackReq := false;
      if Reliable(p.kind) {
        txseq := Succ(txseq);
      }
      buf, n := WriteFrame(f);
    }

    method TakeUnrel() returns (buf: array<Byte>, n: nat)
      requires Fits() && unrel != []
      modifies this`ackReq, this`txseq, this`unrel
      ensures Fits() && LinkView() == Prepared(old(LinkView()), old(unrel)[0]).(unrel := old(unrel)[1..])
      ensures fresh(buf) && n <= buf.Length && buf[..n] == Encode(Framed(old(LinkView()), old(unrel)[0]))
    {
      buf, n := PreparePkt(unrel[0]);
      unrel := unrel[1..];
    }

    /** The packet moves to the unacknowledged queue and the retransmission work is scheduled. */
    method TakeRel() returns (buf: array<Byte>, n: nat)
      requires Fits() && rel != []
      modifies this`ackReq, this`txseq, this`rel, this`unack, this`timer
      ensures Fits()
      ensures LinkView() == Prepared(old(LinkView()), old(rel)[0]).(rel := old(rel)[1..], unack := old(unack) + [old(rel)[0]], timer := true)
      ensures fresh(buf) && n <= buf.Length && buf[..n] == Encode(Framed(old(LinkView()), old(rel)[0]))
    {
      buf, n := PreparePkt(rel[0]);
      unack := unack + [rel[0]];
      rel := rel[1..];
      timer := true;
    }

    /** The next frame to send, or null. */
    method Dequeue(mem: (bool, bool, bool)) returns (buf: array?<Byte>, n: nat)
      requires Fits()
      modifies this`ackReq, this`txseq, this`unrel, this`rel, this`unack, this`timer
      ensures Fits() && LinkView() == H5Link.Dequeue(old(LinkView()), mem).1
      ensures var f := H5Link.Dequeue(old(LinkView()), mem).0;
        if f.None? then buf == null
        else buf != null && n <= buf.Length && Sendable(f.value) && buf[..n] == Encode(f.value)
    {
      n := 0;
      if unrel != [] && mem.0 {
        buf, n := TakeUnrel();
      } else if |unack| < WINDOW && rel != [] && mem.1 {
        buf, n := TakeRel();
      } else if ackReq && mem.2 {
        buf, n := PreparePkt(Packet(Ack, []));
      } else {
        buf := null;
      }
    }

    /** Removes acknowledged packets: counts back from the next number, then unlinks from the front. */
    method PktCull()
      modifies this`unack, this`timer
      ensures LinkView() == Cull(old(LinkView()))
    {
      var left := CountBack();
      Unlink(left);
      if unack == [] {
        timer := false;
      }
    }

    method CountBack() returns (left: nat)
      ensures left == CullCount(|unack|, txseq, rxack) && left <= |unack|
    {
      left := |unack|;
      var seqno := txseq;
      while left > 0 && rxack != seqno
        invariant 0 <= left <= |unack|
        invariant seqno == (txseq - (|unack| - left)) % 8
        invariant (txseq - rxack) % 8 >= |unack| - left
        decreases left
      {
        OneBack(txseq, rxack, seqno, |unack| - left);
        left := left - 1;
        seqno := Pred(seqno);
      }
      CountedBack(|unack|, left, txseq, rxack);
    }

    method Unlink(left: nat)
      requires left <= |unack|
      modifies this`unack
      ensures unack == old(unack)[left..]
    {
      var i := 0;
      while i < left
        invariant 0 <= i <= left <= |old(unack)| && unack == old(unack)[i..]
      {
        unack := unack[1..];
        i := i + 1;
      }
    }

    /** The newest unacknowledged packet goes back to the head of the queue, and gives its number back. */
    method RequeueLast()
      requires Fits() && unack != []
      modifies this`unack, this`rel, this`txseq
      ensures Fits() && |unack| == |old(unack)| - 1 && unack + rel == old(unack + rel) && txseq == Pred(old(txseq))
    {
      BackOne(unack, rel);
      rel := [unack[|unack| - 1]] + rel;
      unack := unack[..|unack| - 1];
      txseq := Pred(txseq);
    }

    /** The retransmission work. */
    method TimedEvent()
      requires Fits()
      modifies this`unack, this`rel, this`txseq, this`wakes
      ensures Fits() && LinkView() == RollBack(old(LinkView()))
    {
      while unack != []
        invariant Fits() && |unack| <= |old(unack)| && unack + rel == old(unack + rel)
        invariant txseq == Before(old(txseq), |old(unack)| - |unack|) && wakes == old(wakes)
        decreases |unack|
      {
        OneMoreBefore(old(txseq), |old(unack)| - |unack|);
        RequeueLast();
      }
      assert [] + rel == rel;
      wakes := wakes + 1;
    }

    // ----- Receiving -----

    function View(): H5
      reads this
    {
      H5(LinkView(), RxView())
    }

    method PutOne(c: Byte)
      requires count > 0
      modifies this`skb, this`crc, this`esc, this`count
      ensures RxView() == Put(old(RxView()), c)
    {
      skb := skb + [c];
      if HasCrc(skb) && state != Check {
        crc := Crc.Step(crc, c);
      }
      esc := false;
      count := count - 1;
    }

    method UnslipOneByte(b: Byte)
      requires count > 0
      modifies this`skb, this`crc, this`esc, this`count, this`state
      ensures RxView() == Unslip(old(RxView()), b)
    {
      if !esc {
        if b == 0xdb {
          esc := true;
        } else {
          PutOne(b);
        }
      } else if b == 0xdc {
        PutOne(0xc0);
      } else if b == 0xdd {
        PutOne(0xdb);
      } else if b == 0xde {
        PutOne(0x11);
      } else if b == 0xdf {
        PutOne(0x13);
      } else {
        state, count := Delimiter, 0;
      }
    }

    /** Consumes one octet, inside a frame or looking for one. */
    method TakeOctet(b: Byte)
      requires RxOk(RxView()) && !Due(RxView()) && (state == Start ==> b == DELIM)
      modifies this`skb, this`crc, this`esc, this`count, this`state
      ensures RxView() == Eat(old(RxView()), b)
    {
      if count > 0 {
        if b == DELIM {
          state, count := Start, 0;
        } else {
          UnslipOneByte(b);
        }
      } else if b == DELIM {
        state := Start;
      }
    }

    /** The first locked section: count the packet, owe an acknowledgement, note the one it carries. */
    method NotePkt(f: Frame)
      modifies this`rxseq, this`ackReq, this`rxack
      ensures LinkView() == Accept(old(LinkView()), f)
    {
      if f.rel {
        rxseq := Succ(rxseq);
        ackReq := true;
      }
      rxack := f.ack;
    }

    method PassUp(f: Frame)
      modifies this`wakes, this`up
      ensures LinkView() == HandedUp(old(LinkView()), f)
    {
      wakes := wakes + 1;
      var kind := PassedAs(f);
      if kind.Some? {
        up := up + [Packet(kind.value, f.data)];
      }
    }

    /** Drops what is acknowledged, and passes the packet on. */
    method FinishPkt(f: Frame)
      modifies this`unack, this`timer, this`wakes, this`up
      ensures LinkView() == Finish(old(LinkView()), f)
    {
      PktCull();
      PassUp(f);
    }

    /** Hands a whole sound packet to the link and, by its channel, to the HCI core. */
    method CompleteRxPkt(f: Frame)
      modifies this`rxseq, this`ackReq, this`rxack, this`unack, this`timer, this`wakes, this`up, this`state
      ensures state == Delimiter && LinkView() == Finish(Accept(old(LinkView()), f), f)
    {
      NotePkt(f);
      FinishPkt(f);
      state := Delimiter;
    }

    method HeaderDone()
      requires |skb| >= 4 && count == 0
      modifies this`ackReq, this`wakes, this`state, this`count
      ensures View() == AfterHdr(old(View()))
    {
      if Checksum(skb[0], skb[1], skb[2]) != skb[3] {
        state := Delimiter;
      } else if IsRel(skb) && skb[0] % 8 != rxseq {
        ackReq := true;
        wakes := wakes + 1;
        state := Delimiter;
      } else {
        state, count := Data, PayloadLen(skb);
      }
    }

    method PayloadDone()
      requires |skb| >= 4 && count == 0
      modifies this`rxseq, this`ackReq, this`rxack, this`unack, this`timer, this`wakes, this`up, this`state, this`count
      ensures View() == AfterData(old(View()))
    {
      if HasCrc(skb) {
        state, count := Check, 2;
      } else {
        CompleteRxPkt(Parsed(skb));
      }
    }

    method CheckDone()
      requires |skb| >= 6 && count == 0
      modifies this`rxseq, this`ackReq, this`rxack, this`unack, this`timer, this`wakes, this`up, this`state
      ensures View() == AfterCheck(old(View()))
    {
      if !TrailerOk(skb, crc) {
        state := Delimiter;
      } else {
        CompleteRxPkt(Parsed(skb[..|skb| - 2]));
      }
    }

    /** The moves the receive loop makes without reading an octet. */
    method SettleOnce()
      requires Valid() && Due(RxView())
      modifies this`rxseq, this`ackReq, this`rxack, this`unack, this`timer, this`wakes, this`up, this`state, this`count
      ensures Valid() && View() == Settle(old(View()))
    {
      SettleFits(View());
      match state {
        case Hdr => HeaderDone();
        case Data => PayloadDone();
        case Check => CheckDone();
      }
    }

    /** Starts a packet; without a buffer for it, goes back to looking for a delimiter. */
    method OpenPkt(granted: bool)
      modifies this`state, this`esc, this`count, this`skb, this`crc
      ensures RxView() == if granted then Begin else GiveUp(Begin)
    {
      state, esc, count, skb, crc := Hdr, false, 4, [], Crc.Init;
      if !granted {
        state, count := Delimiter, 0;
      }
    }

    method FirstOctet(rest: seq<Byte>, ghost mem: Option<nat>)
      requires Valid() && rest != [] && !Due(RxView()) && (state == Start ==> rest[0] == DELIM)
      modifies this`skb, this`crc, this`esc, this`count, this`state
      ensures Valid() && H5Codec.Recv(View(), rest[1..], mem) == old(H5Codec.Recv(View(), rest, mem))
    {
      RecvEaten(View(), rest, mem);
      TakeOctet(rest[0]);
    }

    method Settled(ghost rest: seq<Byte>, ghost mem: Option<nat>)
      requires Valid() && rest != [] && Due(RxView())
      modifies this`rxseq, this`ackReq, this`rxack, this`unack, this`timer, this`wakes, this`up, this`state, this`count
      ensures Valid() && Rank(RxView()) < old(Rank(RxView()))
      ensures H5Codec.Recv(View(), rest, mem) == old(H5Codec.Recv(View(), rest, mem))
    {
      RecvSettled(View(), rest, mem);
      SettleOnce();
    }

    /** The receive routine; `rest` is what is left of the chunk. */
    method Recv(data: seq<Byte>, mem: Option<nat>)
      requires Valid()
      modifies this
      ensures Valid() && View() == H5Codec.Recv(old(View()), data, mem)
    {
      var rest, grant := data, mem;
      while rest != []
        invariant Valid()
        invariant H5Codec.Recv(View(), rest, grant) == H5Codec.Recv(old(View()), data, mem)
        decreases |rest|, Rank(RxView())
      {
        if Due(RxView()) {
          Settled(rest, grant);
        } else if state == Start && rest[0] != DELIM {
          RecvOpened(View(), rest, grant);
          OpenPkt(grant != Some(0));
          if grant == Some(0) {
            return;
          }
          grant := Spent(grant);
        } else {
          FirstOctet(rest, grant);
          rest := rest[1..];
        }
      }
    }
  }
}
