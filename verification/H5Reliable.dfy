/** In-order, exactly-once delivery over every run of the two endpoints. */
module H5Reliable {
  import opened Bytes
  import opened H5Link
  import opened H5Network
  import H5Codec

  // ----- Arithmetic modulo eight -----

  /** Within the window a sequence number determines the position. */
  lemma SameNumber(x: nat, y: nat)
    requires x % 8 == y % 8 && y <= x + 4 && x <= y + 3
    ensures x == y
  {}

  /** How far an acknowledgement is behind tells whether it falls in the window, and where. */
  lemma Behind(base: nat, next: nat, ack: nat)
    requires base <= next <= base + 4 && base <= ack <= base + 4
    ensures var k := (next % 8 - ack % 8) % 8;
      if ack <= next then k == next - ack && k <= next - base else k > next - base
  {}

  // ----- Submitting -----

  /** Queueing behind what waits, reliably or loosely. */
  lemma QueuedSender(n: Node, m: Node, p: Packet, rel: bool, loose: bool)
    requires SenderOk(n) && m == Noted(n, m.link, p, rel, loose) && (rel ==> RelPacket(p)) && (loose ==> UnrelPacket(p))
    requires m.link == n.link.(rel := if rel then n.link.rel + [p] else n.link.rel,
                               unrel := if loose then n.link.unrel + [p] else n.link.unrel)
    ensures SenderOk(m)
  {
    if rel {
      assert m.queued[n.base..] == n.queued[n.base..] + [p];
      assert n.link.unack + (n.link.rel + [p]) == n.link.unack + n.link.rel + [p];
    }
  }

  lemma SubmitSender(n: Node, p: Packet)
    requires SenderOk(n)
    ensures SenderOk(SubmitStep(n, p))
  {
    var fits := |p.data| <= 4095;
    QueuedSender(n, SubmitStep(n, p), p, fits && (p.kind == Acl || p.kind == Command), fits && Loose(p.kind));
  }

  lemma ReportSender(n: Node, p: Packet)
    requires SenderOk(n)
    ensures SenderOk(ReportStep(n, p))
  {
    var fits := |p.data| <= 4095;
    QueuedSender(n, ReportStep(n, p), p, fits && (p.kind == Acl || p.kind == Event), fits && Loose(p.kind));
  }

  lemma DataExtend(q: seq<Packet>, p: Packet, base: nat, high: nat, taken: nat, line: seq<Flight>)
    requires DataOk(q, base, high, taken, line)
    ensures DataOk(q + [p], base, high, taken, line)
  {}

  lemma QueuedSends(n: Node, m: Node, r: Node, line: seq<Flight>, back: seq<Flight>, p: Packet, rel: bool, loose: bool)
    requires Dir(n, r, line, back) && SenderOk(m) && m == Noted(n, m.link, p, rel, loose)
    requires m.link == n.link.(rel := m.link.rel, unrel := m.link.unrel)
    ensures Dir(m, r, line, back)
  {
    if rel {
      DataExtend(n.queued, p, n.base, n.high, r.taken, line);
      assert m.queued[..r.taken] == n.queued[..r.taken];
    }
  }

  lemma SubmitSends(n: Node, r: Node, line: seq<Flight>, back: seq<Flight>, p: Packet)
    requires Dir(n, r, line, back)
    ensures Dir(SubmitStep(n, p), r, line, back)
  {
    var fits := |p.data| <= 4095;
    SubmitSender(n, p);
    QueuedSends(n, SubmitStep(n, p), r, line, back, p, fits && (p.kind == Acl || p.kind == Command), fits && Loose(p.kind));
  }

  lemma ReportSends(n: Node, r: Node, line: seq<Flight>, back: seq<Flight>, p: Packet)
    requires Dir(n, r, line, back)
    ensures Dir(ReportStep(n, p), r, line, back)
  {
    var fits := |p.data| <= 4095;
    ReportSender(n, p);
    QueuedSends(n, ReportStep(n, p), r, line, back, p, fits && (p.kind == Acl || p.kind == Event), fits && Loose(p.kind));
  }

  /** A step that leaves the receiving half of a node alone leaves the direction it receives on alone. */
  lemma SameReceiver(s: Node, r: Node, r': Node, line: seq<Flight>, back: seq<Flight>)
    requires Dir(s, r, line, back)
    requires r'.taken == r.taken && r'.busy == r.busy && r'.link.rxseq == r.link.rxseq && r'.link.up == r.link.up
    ensures Dir(s, r', line, back)
  {}

  // ----- Sending -----

  lemma FirstRel(n: Node)
    requires SenderOk(n) && n.link.rel != []
    ensures Next(n) < |n.queued| && n.link.rel[0] == n.queued[Next(n)] && RelPacket(n.link.rel[0])
  {
    assert (n.link.unack + n.link.rel)[|n.link.unack|] == n.link.rel[0];
    assert n.queued[Next(n)] == n.queued[n.base..][|n.link.unack|];
  }

  /** A reliable frame goes out under the number of its position, first time or again. */
  lemma SentCarries(n: Node, mem: (bool, bool, bool))
    requires SenderOk(n) && Sent(n, mem) != []
    ensures var x := Sent(n, mem)[0];
      && H5Codec.Sendable(x.frame) && x.frame.ack == n.link.rxseq && x.ackPos == n.taken
      && (x.frame.rel ==> x.pos == Next(n) && Carries(n.queued, SendStep(n, mem).high, x))
  {
    var c := Choose(n.link, mem);
    if c == FromUnrel {
      assert UnrelPacket(n.link.unrel[0]);
    } else if c == FromRel {
      FirstRel(n);
    }
  }

  lemma Shifted(u: seq<Packet>, r: seq<Packet>)
    requires r != []
    ensures (u + [r[0]]) + r[1..] == u + r
  {}

  lemma AdvanceSender(n: Node, m: Node)
    requires SenderOk(n) && |n.link.unack| < WINDOW && n.link.rel != []
    requires m.link.unack == n.link.unack + [n.link.rel[0]] && m.link.rel == n.link.rel[1..]
    requires m.link.unrel == n.link.unrel && m.link.txseq == Succ(n.link.txseq)
    requires m.queued == n.queued && m.base == n.base && m.high == Max(n.high, Next(n) + 1)
    ensures SenderOk(m)
  {
    FirstRel(n);
    Shifted(n.link.unack, n.link.rel);
  }

  lemma SendSender(n: Node, mem: (bool, bool, bool))
    requires SenderOk(n)
    ensures SenderOk(SendStep(n, mem))
  {
    var c, m := Choose(n.link, mem), SendStep(n, mem);
    if c == FromUnrel {
      assert UnrelPacket(n.link.unrel[0]);
    } else if c == FromRel {
      FirstRel(n);
      AdvanceSender(n, m);
    }
  }

  lemma SendObliged(n: Node, mem: (bool, bool, bool))
    requires NothingForgotten(n)
    ensures NothingForgotten(SendStep(n, mem))
  {}

  lemma DataAppend(q: seq<Packet>, base: nat, high: nat, taken: nat, line: seq<Flight>, x: Flight, high': nat)
    requires DataOk(q, base, high, taken, line) && high <= base + WINDOW && high <= high' <= |q|
    requires H5Codec.Sendable(x.frame)
    requires x.frame.rel ==> base <= x.pos && Carries(q, high', x)
    ensures DataOk(q, base, high', taken, line + [x])
  {
    var line' := line + [x];
    forall i | 0 <= i < |line'| && line'[i].frame.rel
      ensures Carries(q, high', line'[i]) && taken <= line'[i].pos + 4
    {
      if i < |line| {
        assert Carries(q, high, line[i]);
      }
    }
    forall i, j | 0 <= i < j < |line'| && line'[i].frame.rel && line'[j].frame.rel
      ensures line'[i].pos <= line'[j].pos + 3
    {
      assert Carries(q, high, line[i]);
    }
  }

  lemma AckAppend(base: nat, taken: nat, line: seq<Flight>, busy: Option<Flight>, rxack: Seqno, x: Flight)
    requires AckOk(base, taken, line, busy, rxack) && base <= taken
    requires x.frame.ack == taken % 8 && x.ackPos == taken
    ensures AckOk(base, taken, line + [x], busy, rxack)
  {
    assert forall i :: 0 <= i < |line| ==> AckFlight(base, taken, line[i]);
  }

  lemma SendSends(n: Node, r: Node, line: seq<Flight>, back: seq<Flight>, mem: (bool, bool, bool))
    requires Dir(n, r, line, back)
    ensures Dir(SendStep(n, mem), r, line + Sent(n, mem), back)
  {
    var m, out := SendStep(n, mem), Sent(n, mem);
    SendSender(n, mem);
    SendObliged(n, mem);
    if out != [] {
      SentCarries(n, mem);
      DataAppend(n.queued, n.base, n.high, r.taken, line, out[0], m.high);
    } else {
      assert line + out == line;
    }
  }

  lemma SendAcks(s: Node, n: Node, line: seq<Flight>, back: seq<Flight>, mem: (bool, bool, bool))
    requires Dir(s, n, line, back) && SenderOk(n)
    ensures Dir(s, SendStep(n, mem), line, back + Sent(n, mem))
  {
    var m, out := SendStep(n, mem), Sent(n, mem);
    SameReceiver(s, n, m, line, back);
    if out != [] {
      SentCarries(n, mem);
      AckAppend(s.base, n.taken, back, s.busy, s.link.rxack, out[0]);
    } else {
      assert back + out == back;
    }
  }

  // ----- Arriving -----

  lemma AckPop(base: nat, taken: nat, line: seq<Flight>, rxack: Seqno)
    requires AckOk(base, taken, line, None, rxack) && line != []
    ensures AckOk(base, taken, line[1..], None, rxack)
    ensures AckOk(base, taken, line[1..], Some(line[0]), line[0].frame.ack)
  {
    assert AckFlight(base, taken, line[0]);
  }

  lemma ArriveSender(n: Node, x: Flight)
    requires SenderOk(n) && NothingForgotten(n)
    ensures SenderOk(ArriveStep(n, x)) && NothingForgotten(ArriveStep(n, x))
  {}

  lemma ArriveHolds(n: Node, x: Flight)
    requires n.busy.None?
    ensures var m := ArriveStep(n, x);
      && m.queued == n.queued && m.base == n.base && m.high == n.high
      && ((m.busy.None? && m.link.rxack == n.link.rxack) || (m.busy == Some(x) && m.link.rxack == x.frame.ack))
  {}

  lemma ArriveSends(n: Node, r: Node, line: seq<Flight>, back: seq<Flight>)
    requires Dir(n, r, line, back) && n.busy.None? && back != []
    ensures Dir(ArriveStep(n, back[0]), r, line, back[1..])
  {
    ArriveSender(n, back[0]);
    ArriveHolds(n, back[0]);
    AckPop(n.base, r.taken, back, n.link.rxack);
  }

  lemma DataPop(q: seq<Packet>, base: nat, high: nat, taken: nat, line: seq<Flight>)
    requires DataOk(q, base, high, taken, line) && line != []
    ensures DataOk(q, base, high, taken, line[1..])
    ensures line[0].frame.rel && line[0].pos == taken ==> DataOk(q, base, high, taken + 1, line[1..])
  {
    var rest := line[1..];
    forall i | 0 <= i < |rest| && rest[i].frame.rel
      ensures Carries(q, high, rest[i]) && taken <= rest[i].pos + 4
      ensures line[0].frame.rel && line[0].pos == taken ==> taken + 1 <= rest[i].pos + 4
    {
      assert rest[i] == line[i + 1];
    }
    assert line[0].frame.rel ==> Carries(q, high, line[0]);
  }

  /** The number test accepts a reliable frame exactly when its packet is the next one. */
  lemma AdmittedIsNext(q: seq<Packet>, base: nat, high: nat, n: Node, x: Flight)
    requires base <= n.taken && high <= base + WINDOW && n.link.rxseq == n.taken % 8
    requires x.frame.rel && Carries(q, high, x) && n.taken <= x.pos + 4
    ensures Admits(n.link, x.frame) <==> x.pos == n.taken
  {
    if Admits(n.link, x.frame) {
      SameNumber(x.pos, n.taken);
    }
  }

  lemma ReceiverTakes(q: seq<Packet>, high: nat, n: Node, x: Flight)
    requires ReceiverOk(q, n) && n.busy.None? && Admits(n.link, x.frame)
    requires x.frame.rel ==> x.pos == n.taken && Carries(q, high, x)
    ensures ReceiverOk(q, ArriveStep(n, x))
  {
    var m := ArriveStep(n, x);
    if x.frame.rel {
      assert q[..n.taken + 1] == q[..n.taken] + [q[n.taken]];
      assert Got(m) == Got(n) + [q[n.taken]];
    } else {
      assert Got(m) == Got(n);
    }
  }

  lemma ArriveReceives(s: Node, n: Node, line: seq<Flight>, back: seq<Flight>)
    requires Dir(s, n, line, back) && n.busy.None? && line != []
    ensures Dir(s, ArriveStep(n, line[0]), line[1..], back)
  {
    var x := line[0];
    DataPop(s.queued, s.base, s.high, n.taken, line);
    if Admits(n.link, x.frame) {
      if x.frame.rel {
        assert Carries(s.queued, s.high, x);
        AdmittedIsNext(s.queued, s.base, s.high, n, x);
        AckLater(s.base, n.taken, back, s.busy, s.link.rxack);
      }
      ReceiverTakes(s.queued, s.high, n, x);
    }
  }

  lemma AckLater(base: nat, taken: nat, line: seq<Flight>, busy: Option<Flight>, rxack: Seqno)
    requires AckOk(base, taken, line, busy, rxack)
    ensures AckOk(base, taken + 1, line, busy, rxack)
  {
    assert forall i :: 0 <= i < |line| ==> AckFlight(base, taken, line[i]);
  }

  // ----- Finishing a received frame -----

  lemma CullSender(n: Node, m: Node, gone: nat)
    requires SenderOk(n) && gone <= |n.link.unack|
    requires m.link.unack == n.link.unack[gone..] && m.link.rel == n.link.rel && m.link.unrel == n.link.unrel
    requires m.link.txseq == n.link.txseq && m.queued == n.queued && m.high == n.high && m.base == n.base + gone
    ensures SenderOk(m)
  {
    assert n.queued[m.base..] == n.queued[n.base..][gone..];
    assert (n.link.unack + n.link.rel)[gone..] == m.link.unack + n.link.rel;
  }

  /**
   * An acknowledgement inside the window clears exactly the packets before it, any other clears
   * none; so only accepted packets are ever dropped.
   */
  lemma CullExact(n: Node, r: Node, back: seq<Flight>)
    requires SenderOk(n) && n.busy.Some? && AckOk(n.base, r.taken, back, n.busy, n.link.rxack) && r.taken <= n.high
    ensures var a := n.busy.value.ackPos; FinishStep(n).base == (if a <= Next(n) then a else n.base) <= r.taken
  {
    assert AckFlight(n.base, r.taken, n.busy.value);
    Behind(n.base, Next(n), n.busy.value.ackPos);
  }

  lemma AckFinish(base: nat, base': nat, taken: nat, line: seq<Flight>, x: Flight, rxack: Seqno, rxack': Seqno)
    requires AckOk(base, taken, line, Some(x), rxack) && base <= base' <= x.ackPos
    ensures AckOk(base', taken, line, None, rxack')
  {
    assert forall i :: 0 <= i < |line| ==> AckFlight(base, taken, line[i]);
  }

  lemma FinishSends(n: Node, r: Node, line: seq<Flight>, back: seq<Flight>)
    requires Dir(n, r, line, back) && n.busy.Some?
    ensures Dir(FinishStep(n), r, line, back)
  {
    var m := FinishStep(n);
    CullExact(n, r, back);
    CullSender(n, m, m.base - n.base);
    AckFinish(n.base, m.base, r.taken, back, n.busy.value, n.link.rxack, m.link.rxack);
    DataBase(n.queued, n.base, m.base, n.high, r.taken, line);
  }

  lemma DataBase(q: seq<Packet>, base: nat, base': nat, high: nat, taken: nat, line: seq<Flight>)
    requires DataOk(q, base, high, taken, line) && base' <= taken
    ensures DataOk(q, base', high, taken, line)
  {}

  lemma {:induction false} RelOnlyAppend(s: seq<Packet>, p: Packet)
    ensures RelOnly(s + [p]) == RelOnly(s) + if Reliable(p.kind) then [p] else []
  {
    assert (s + [p])[..|s|] == s;
  }

  lemma FinishReceives(s: Node, n: Node, line: seq<Flight>, back: seq<Flight>)
    requires Dir(s, n, line, back) && n.busy.Some?
    ensures Dir(s, FinishStep(n), line, back)
  {
    var f := n.busy.value.frame;
    var k := PassedAs(f);
    if k.Some? {
      RelOnlyAppend(n.link.up, Packet(k.value, f.data));
    }
    assert Got(FinishStep(n)) == Got(n);
  }

  // ----- Losing and retransmitting -----

  lemma LoseData(q: seq<Packet>, base: nat, high: nat, taken: nat, line: seq<Flight>, k: nat)
    requires DataOk(q, base, high, taken, line) && k < |line|
    ensures DataOk(q, base, high, taken, line[..k] + line[k + 1..])
  {
    var rest := line[..k] + line[k + 1..];
    assert forall i :: 0 <= i < |rest| ==> rest[i] == line[if i < k then i else i + 1];
  }

  lemma LoseAck(base: nat, taken: nat, line: seq<Flight>, busy: Option<Flight>, rxack: Seqno, k: nat)
    requires AckOk(base, taken, line, busy, rxack) && k < |line|
    ensures AckOk(base, taken, line[..k] + line[k + 1..], busy, rxack)
  {
    var rest := line[..k] + line[k + 1..];
    assert forall i :: 0 <= i < |rest| ==> rest[i] == line[if i < k then i else i + 1];
  }

  lemma BackTo(base: nat, k: nat)
    ensures ((base + k) % 8 - k) % 8 == base % 8
  {}

  lemma RollBackSender(n: Node)
    requires SenderOk(n)
    ensures SenderOk(RollBackStep(n))
  {
    if n.fired {
      BackTo(n.base, |n.link.unack|);
      assert [] + (n.link.unack + n.link.rel) == n.link.unack + n.link.rel;
    }
  }

  lemma RollBackSends(n: Node, r: Node, line: seq<Flight>, back: seq<Flight>)
    requires Dir(n, r, line, back)
    ensures Dir(RollBackStep(n), r, line, back)
  {
    RollBackSender(n);
  }

  lemma FireSends(n: Node, r: Node, line: seq<Flight>, back: seq<Flight>)
    requires Dir(n, r, line, back)
    ensures Dir(FireStep(n), r, line, back)
  {}

  // ----- Every run -----

  lemma SubmitKeeps(s: Net, p: Packet)
    requires Inv(s)
    ensures Inv(StepA(s, Submit(p)))
  {
    SubmitSends(s.a, s.b, s.ab, s.ba, p);
    SameReceiver(s.b, s.a, SubmitStep(s.a, p), s.ba, s.ab);
  }

  lemma ReportKeeps(s: Net, p: Packet)
    requires Inv(s)
    ensures Inv(StepA(s, Report(p)))
  {
    ReportSends(s.a, s.b, s.ab, s.ba, p);
    SameReceiver(s.b, s.a, ReportStep(s.a, p), s.ba, s.ab);
  }

  lemma SendKeeps(s: Net, mem: (bool, bool, bool))
    requires Inv(s)
    ensures Inv(StepA(s, Send(mem)))
  {
    SendSends(s.a, s.b, s.ab, s.ba, mem);
    SendAcks(s.b, s.a, s.ba, s.ab, mem);
  }

  lemma ArriveKeeps(s: Net)
    requires Inv(s) && s.a.busy.None? && s.ba != []
    ensures Inv(s.(a := ArriveStep(s.a, s.ba[0]), ba := s.ba[1..]))
  {
    ArriveSends(s.a, s.b, s.ab, s.ba);
    ArriveReceives(s.b, s.a, s.ba, s.ab);
  }

  lemma FinishKeeps(s: Net)
    requires Inv(s) && s.a.busy.Some?
    ensures Inv(s.(a := FinishStep(s.a)))
  {
    FinishSends(s.a, s.b, s.ab, s.ba);
    FinishReceives(s.b, s.a, s.ba, s.ab);
  }

  lemma LoseKeeps(s: Net, i: nat)
    requires Inv(s) && i < |s.ba|
    ensures Inv(s.(ba := s.ba[..i] + s.ba[i + 1..]))
  {
    LoseData(s.b.queued, s.b.base, s.b.high, s.a.taken, s.ba, i);
    LoseAck(s.a.base, s.b.taken, s.ba, s.a.busy, s.a.link.rxack, i);
  }

  lemma FireKeeps(s: Net)
    requires Inv(s)
    ensures Inv(StepA(s, Fire))
  {
    FireSends(s.a, s.b, s.ab, s.ba);
    SameReceiver(s.b, s.a, FireStep(s.a), s.ba, s.ab);
  }

  lemma RollBackKeeps(s: Net)
    requires Inv(s)
    ensures Inv(StepA(s, RollBack))
  {
    RollBackSends(s.a, s.b, s.ab, s.ba);
    SameReceiver(s.b, s.a, RollBackStep(s.a), s.ba, s.ab);
  }

  lemma ArriveAct(s: Net)
    requires Inv(s)
    ensures Inv(StepA(s, Arrive))
  {
    if s.a.busy.None? && s.ba != [] {
      ArriveKeeps(s);
      assert StepA(s, Arrive) == s.(a := ArriveStep(s.a, s.ba[0]), ba := s.ba[1..]);
    }
  }

  lemma FinishAct(s: Net)
    requires Inv(s)
    ensures Inv(StepA(s, Finish))
  {
    if s.a.busy.Some? {
      FinishKeeps(s);
      assert StepA(s, Finish) == s.(a := FinishStep(s.a));
    }
  }

  lemma LoseAct(s: Net, i: nat)
    requires Inv(s)
    ensures Inv(StepA(s, Lose(i)))
  {
    if i < |s.ba| {
      LoseKeeps(s, i);
      assert StepA(s, Lose(i)) == s.(ba := s.ba[..i] + s.ba[i + 1..]);
    }
  }

  lemma StepKeeps(s: Net, act: Action)
    requires Inv(s)
    ensures Inv(StepA(s, act))
  {
    match act
    case Submit(p) => SubmitKeeps(s, p);
    case Report(p) => ReportKeeps(s, p);
    case Send(mem) => SendKeeps(s, mem);
    case Arrive => ArriveAct(s);
    case Finish => FinishAct(s);
    case Lose(i) => LoseAct(s, i);
    case Fire => FireKeeps(s);
    case RollBack => RollBackKeeps(s);
  }

  /** The invariant holds after every run. */
  lemma {:induction false} RunKeeps(s: Net, moves: seq<Move>)
    requires Inv(s)
    ensures Inv(Run(s, moves))
  {
    if moves != [] {
      var was, m := Run(s, moves[..|moves| - 1]), moves[|moves| - 1];
      RunKeeps(s, moves[..|moves| - 1]);
      if m.side == A {
        StepKeeps(was, m.act);
      } else {
        StepKeeps(Flip(was), m.act);
      }
    }
  }

  lemma NewDirOk(crcA: bool, crcB: bool)
    ensures Dir(NewNode(crcA), NewNode(crcB), [], [])
  {
    assert SenderOk(NewNode(crcA));
  }

  lemma NewNetOk(crcA: bool, crcB: bool)
    ensures Inv(NewNet(crcA, crcB))
  {
    NewDirOk(crcA, crcB);
    NewDirOk(crcB, crcA);
  }

  lemma PrefixTaken(q: seq<Packet>, n: Node)
    requires ReceiverOk(q, n)
    ensures RelOnly(n.link.up) <= q
  {
    assert Got(n)[..|RelOnly(n.link.up)|] == RelOnly(n.link.up);
  }

  /**
   * In every reachable state the reliable packets handed up at each end are a prefix of those queued
   * at the other: in order, each exactly once.
   */
  lemma Delivery(crcA: bool, crcB: bool, moves: seq<Move>)
    ensures var s := Run(NewNet(crcA, crcB), moves);
      RelOnly(s.b.link.up) <= s.a.queued && RelOnly(s.a.link.up) <= s.b.queued
  {
    NewNetOk(crcA, crcB);
    RunKeeps(NewNet(crcA, crcB), moves);
    var s := Run(NewNet(crcA, crcB), moves);
    PrefixTaken(s.a.queued, s.b);
    PrefixTaken(s.b.queued, s.a);
  }

  lemma ReachableOk(crcA: bool, crcB: bool, moves: seq<Move>)
    ensures Inv(Run(NewNet(crcA, crcB), moves))
  {
    NewNetOk(crcA, crcB);
    RunKeeps(NewNet(crcA, crcB), moves);
  }

  lemma StreamCut(n: Node)
    requires SenderOk(n)
    ensures n.queued == n.queued[..n.base] + n.link.unack + n.link.rel
  {
    assert n.queued == n.queued[..n.base] + n.queued[n.base..];
    assert n.queued[..n.base] + (n.link.unack + n.link.rel) == n.queued[..n.base] + n.link.unack + n.link.rel;
  }

  /**
   * The stream of `s` is what was acknowledged, then the unacknowledged packets, then the waiting
   * ones; at most a window is unacknowledged; and every acknowledged packet was accepted by `r`.
   */
  predicate Conserved(s: Node, r: Node) {
    && s.base <= r.taken <= |s.queued|
    && s.queued == s.queued[..s.base] + s.link.unack + s.link.rel
    && |s.link.unack| <= WINDOW
    && Got(r) == s.queued[..r.taken]
    && NothingForgotten(s)
  }

  lemma DirConserves(s: Node, r: Node, line: seq<Flight>, back: seq<Flight>)
    requires Dir(s, r, line, back)
    ensures Conserved(s, r)
  {
    StreamCut(s);
  }

  /** Conservation, and safety of dropping, in both directions. */
  lemma Conservation(crcA: bool, crcB: bool, moves: seq<Move>)
    ensures var s := Run(NewNet(crcA, crcB), moves); Conserved(s.a, s.b) && Conserved(s.b, s.a)
  {
    ReachableOk(crcA, crcB, moves);
    var s := Run(NewNet(crcA, crcB), moves);
    DirConserves(s.a, s.b, s.ab, s.ba);
    DirConserves(s.b, s.a, s.ba, s.ab);
  }

  /**
   * A frame from `s` to `r` carries the packet of its position under that position's number, and lies
   * within four places below and three above the one expected.
   */
  predicate OnItsWay(s: Node, r: Node, x: Flight) {
    && x.pos < |s.queued| && x.frame.seqno == x.pos % 8 && Payload(x.frame) == [s.queued[x.pos]]
    && r.taken <= x.pos + 4 && x.pos <= r.taken + 3
    && H5Codec.Sendable(x.frame)
  }

  predicate LineOk(s: Node, r: Node, line: seq<Flight>) {
    forall i :: 0 <= i < |line| && line[i].frame.rel ==> OnItsWay(s, r, line[i])
  }

  lemma DirInFlight(s: Node, r: Node, line: seq<Flight>, back: seq<Flight>)
    requires Dir(s, r, line, back)
    ensures LineOk(s, r, line)
  {
    forall i | 0 <= i < |line| && line[i].frame.rel ensures OnItsWay(s, r, line[i]) {
      assert Carries(s.queued, s.high, line[i]);
    }
  }

  /** So it is with every reliable frame under way on either line, first sent or retransmitted. */
  lemma InFlight(crcA: bool, crcB: bool, moves: seq<Move>)
    ensures var s := Run(NewNet(crcA, crcB), moves); LineOk(s.a, s.b, s.ab) && LineOk(s.b, s.a, s.ba)
  {
    ReachableOk(crcA, crcB, moves);
    var s := Run(NewNet(crcA, crcB), moves);
    DirInFlight(s.a, s.b, s.ab, s.ba);
    DirInFlight(s.b, s.a, s.ba, s.ab);
  }
}
