/** Delivery stays possible: from every reachable state some continuation delivers and acknowledges everything. */
module H5Progress {
  import opened Bytes
  import opened H5Link
  import opened H5Network
  import opened H5Reliable
  import H5Codec
  import H5RoundTrip

  lemma RunOne(s: Net, moves: seq<Move>, m: Move)
    ensures Run(s, moves + [m]) == Step(Run(s, moves), m)
  {
    assert (moves + [m])[..|moves|] == moves;
  }

  lemma Peeled(a: seq<Move>, b: seq<Move>, front: seq<Move>, last: Move)
    requires b != [] && front == b[..|b| - 1] && last == b[|b| - 1]
    ensures b == front + [last] && a + b == (a + front) + [last]
  {}

  lemma RunLast(s: Net, moves: seq<Move>, front: seq<Move>, last: Move)
    requires moves == front + [last]
    ensures Run(s, moves) == Step(Run(s, front), last)
  {
    RunOne(s, front, last);
  }

  lemma {:induction false} RunConcat(s: Net, a: seq<Move>, b: seq<Move>)
    ensures Run(s, a + b) == Run(Run(s, a), b)
  {
    if b == [] {
      assert a + b == a;
    } else {
      var front, last := b[..|b| - 1], b[|b| - 1];
      RunConcat(s, a, front);
      Peeled(a, b, front, last);
      RunLast(s, a + b, a + front, last);
      RunLast(Run(s, a), b, front, last);
    }
  }

  lemma RunFirst(s: Net, m: Move)
    ensures Run(s, [m]) == Step(s, m)
  {
    RunOne(s, [], m);
    assert [] + [m] == [m];
  }

  /** Sound, with nothing under way and no frame half accepted. */
  predicate Calm(s: Net) {
    Inv(s) && s.ab == [] && s.ba == [] && s.a.busy.None? && s.b.busy.None?
  }

  predicate Queues(act: Action) {
    act.Submit? || act.Report?
  }

  /** Nothing new is queued. */
  predicate Unfed(moves: seq<Move>) {
    forall i :: 0 <= i < |moves| ==> !Queues(moves[i].act)
  }

  // ----- Settling down -----

  lemma {:induction false} LoseAll(s: Net, side: Side) returns (moves: seq<Move>)
    ensures Run(s, moves) == if side == A then s.(ba := []) else s.(ab := [])
    ensures Unfed(moves)
    decreases if side == A then |s.ba| else |s.ab|
  {
    var line := if side == A then s.ba else s.ab;
    if line == [] {
      moves := [];
    } else {
      var m := Move(side, Lose(0));
      assert line[..0] + line[1..] == line[1..];
      RunFirst(s, m);
      var rest := LoseAll(Step(s, m), side);
      RunConcat(s, [m], rest);
      moves := [m] + rest;
    }
  }

  function Three(m: Move, n: Move, o: Move): (r: seq<Move>)
    ensures !Queues(m.act) && !Queues(n.act) && !Queues(o.act) ==> Unfed(r)
  {
    [m] + [n] + [o]
  }

  lemma RunThree(s: Net, m: Move, n: Move, o: Move, s1: Net, s2: Net)
    requires s1 == Step(s, m) && s2 == Step(s1, n)
    ensures Run(s, Three(m, n, o)) == Step(s2, o)
  {
    RunFirst(s, m);
    RunOne(s, [m], n);
    RunOne(s, [m] + [n], o);
  }

  /** Ends the acceptance of a frame at either end. */
  lemma FinishBoth(s: Net) returns (moves: seq<Move>)
    requires s.ab == [] && s.ba == []
    ensures Unfed(moves)
    ensures var t := Run(s, moves);
      && t.ab == [] && t.ba == [] && t.a.busy.None? && t.b.busy.None?
      && t.a.queued == s.a.queued && t.a.base >= s.a.base
  {
    var m, n := Move(A, Finish), Move(B, Finish);
    moves := [m] + [n];
    RunFirst(s, m);
    RunOne(s, [m], n);
  }

  lemma SettleDown(s: Net) returns (moves: seq<Move>)
    requires Inv(s)
    ensures Calm(Run(s, moves)) && Unfed(moves)
  {
    var one := LoseAll(s, A);
    var s1 := Run(s, one);
    var two := LoseAll(s1, B);
    var s2 := Run(s1, two);
    var three := FinishBoth(s2);
    var rest := two + three;
    moves := one + rest;
    RunConcat(s1, two, three);
    RunConcat(s, one, rest);
    RunKeeps(s, moves);
  }

  /** A timer that fires is used up, and so is what it set off. */
  lemma UsedUp(n: Node)
    requires n.link.timer && !n.fired
    ensures var m := FireStep(n);
      m.fired && !m.link.timer && RollBackStep(m) == n.(link := H5Link.RollBack(n.link.(timer := false)))
  {}

  /** A timeout puts everything unacknowledged back. */
  lemma TimeOut(s: Net) returns (moves: seq<Move>)
    requires Calm(s)
    ensures Unfed(moves)
    ensures var t := Run(s, moves);
      && Calm(t) && t.a.link.unack == [] && t.a.queued == s.a.queued && t.a.base == s.a.base && t.b == s.b
  {
    var m, n := Move(A, Fire), Move(A, RollBack);
    moves := [m] + [n];
    RunFirst(s, m);
    RunOne(s, [m], n);
    RunKeeps(s, moves);
  }

  // ----- One packet over, one acknowledgement back -----

  lemma KeepsStep(s: Net, m: Move)
    requires Inv(s)
    ensures Inv(Step(s, m))
  {
    if m.side == A {
      StepKeeps(s, m.act);
    } else {
      StepKeeps(Flip(s), m.act);
    }
  }

  lemma RelSent(n: Node, mem: (bool, bool, bool))
    requires SenderOk(n) && |n.link.unack| < WINDOW && n.link.rel != [] && mem == (false, true, false)
    ensures |Sent(n, mem)| == 1 && Sent(n, mem)[0].frame.rel && Sent(n, mem)[0].pos == Next(n)
    ensures var m := SendStep(n, mem);
      m.busy == n.busy && m.queued == n.queued && m.base == n.base && Next(m) == Next(n) + 1
  {
    FirstRel(n);
    assert Choose(n.link, mem) == FromRel;
  }

  lemma PacketSent(s: Net)
    requires Calm(s) && |s.a.link.unack| < WINDOW && s.a.link.rel != []
    ensures var t := Step(s, Move(A, Send((false, true, false))));
      && Inv(t) && |t.ab| == 1 && t.ab[0].frame.rel && t.ab[0].pos == Next(s.a) && t.ba == []
      && t.b == s.b && t.a.busy.None? && t.a.queued == s.a.queued && t.a.base == s.a.base && Next(t.a) == Next(s.a) + 1
  {
    KeepsStep(s, Move(A, Send((false, true, false))));
    RelSent(s.a, (false, true, false));
  }

  lemma PacketTaken(s: Net)
    requires Inv(s) && |s.ab| == 1 && s.ab[0].frame.rel && s.b.busy.None?
    ensures var t := Step(s, Move(B, Arrive));
      && Inv(t) && t.a == s.a && t.ab == [] && t.ba == s.ba && t.b.link.ackReq
      && t.b.taken == if s.ab[0].pos == s.b.taken then s.b.taken + 1 else s.b.taken
  {
    KeepsStep(s, Move(B, Arrive));
    var x := s.ab[0];
    assert Carries(s.a.queued, s.a.high, x) && s.b.taken <= x.pos + 4;
    AdmittedIsNext(s.a.queued, s.a.base, s.a.high, s.b, x);
  }

  lemma PacketFinished(s: Net)
    requires Inv(s)
    ensures var t := Step(s, Move(B, Finish));
      && Inv(t) && t.a == s.a && t.ab == s.ab && t.ba == s.ba && t.b.busy.None?
      && t.b.link.ackReq == s.b.link.ackReq && t.b.taken == s.b.taken
  {
    KeepsStep(s, Move(B, Finish));
  }

  lemma PacketSteps(s: Net)
    requires Calm(s) && |s.a.link.unack| < WINDOW && s.a.link.rel != []
    ensures var t := Run(s, Three(Move(A, Send((false, true, false))), Move(B, Arrive), Move(B, Finish)));
      && Calm(t) && t.a.queued == s.a.queued && t.a.base == s.a.base && Next(t.a) == Next(s.a) + 1
      && t.b.taken == (if Next(s.a) == s.b.taken then s.b.taken + 1 else s.b.taken) && t.b.link.ackReq
  {
    var s1 := Step(s, Move(A, Send((false, true, false))));
    var s2 := Step(s1, Move(B, Arrive));
    PacketSent(s);
    PacketTaken(s1);
    PacketFinished(s2);
    RunThree(s, Move(A, Send((false, true, false))), Move(B, Arrive), Move(B, Finish), s1, s2);
  }

  /** The next reliable packet is sent and arrives. */
  lemma OnePacket(s: Net) returns (moves: seq<Move>)
    requires Calm(s) && |s.a.link.unack| < WINDOW && s.a.link.rel != []
    ensures Unfed(moves)
    ensures var t := Run(s, moves);
      && Calm(t) && t.a.queued == s.a.queued && t.a.base == s.a.base && Next(t.a) == Next(s.a) + 1
      && t.b.taken == (if Next(s.a) == s.b.taken then s.b.taken + 1 else s.b.taken) && t.b.link.ackReq
  {
    moves := Three(Move(A, Send((false, true, false))), Move(B, Arrive), Move(B, Finish));
    PacketSteps(s);
  }

  lemma AckSent(s: Net)
    requires Calm(s) && s.b.link.ackReq
    ensures var t := Step(s, Move(B, Send((false, false, true))));
      && Inv(t) && t.a == s.a && t.ab == [] && |t.ba| == 1 && !t.ba[0].frame.rel && t.ba[0].ackPos == s.b.taken
      && t.b.taken == s.b.taken && t.b.busy.None?
  {
    KeepsStep(s, Move(B, Send((false, false, true))));
  }

  lemma AckTaken(s: Net)
    requires Inv(s) && |s.ba| == 1 && !s.ba[0].frame.rel && s.a.busy.None?
    ensures var t := Step(s, Move(A, Arrive));
      && Inv(t) && t.b == s.b && t.ab == s.ab && t.ba == [] && t.a.busy == Some(s.ba[0])
      && t.a.queued == s.a.queued && Next(t.a) == Next(s.a)
  {
    KeepsStep(s, Move(A, Arrive));
  }

  lemma AckFinished(s: Net)
    requires Inv(s) && s.a.busy.Some? && s.a.busy.value.ackPos <= Next(s.a)
    ensures var t := Step(s, Move(A, Finish));
      && Inv(t) && t.b == s.b && t.ab == s.ab && t.ba == s.ba && t.a.busy.None?
      && t.a.queued == s.a.queued && t.a.base == s.a.busy.value.ackPos
  {
    KeepsStep(s, Move(A, Finish));
    CullExact(s.a, s.b, s.ba);
  }

  lemma AckSteps(s: Net)
    requires Calm(s) && s.b.link.ackReq && s.b.taken <= Next(s.a)
    ensures var t := Run(s, Three(Move(B, Send((false, false, true))), Move(A, Arrive), Move(A, Finish)));
      Calm(t) && t.a.queued == s.a.queued && t.a.base == s.b.taken
  {
    var s1 := Step(s, Move(B, Send((false, false, true))));
    var s2 := Step(s1, Move(A, Arrive));
    AckSent(s);
    AckTaken(s1);
    AckFinished(s2);
    RunThree(s, Move(B, Send((false, false, true))), Move(A, Arrive), Move(A, Finish), s1, s2);
  }

  /** An owed acknowledgement is sent on its own and arrives. */
  lemma OneAck(s: Net) returns (moves: seq<Move>)
    requires Calm(s) && s.b.link.ackReq && s.b.taken <= Next(s.a)
    ensures Unfed(moves)
    ensures var t := Run(s, moves); Calm(t) && t.a.queued == s.a.queued && t.a.base == s.b.taken
  {
    moves := Three(Move(B, Send((false, false, true))), Move(A, Arrive), Move(A, Finish));
    AckSteps(s);
  }

  // ----- Getting everything across -----

  lemma MoreToSend(n: Node)
    requires SenderOk(n) && Next(n) < |n.queued|
    ensures n.link.rel != []
  {
    assert |n.queued[n.base..]| == |n.link.unack| + |n.link.rel|;
  }

  /** Packets the peer has already are sent again up to what it has. */
  lemma {:induction false} CatchUp(s: Net) returns (moves: seq<Move>)
    requires Calm(s) && Next(s.a) <= s.b.taken
    ensures Unfed(moves)
    ensures var t := Run(s, moves);
      && Calm(t) && t.a.queued == s.a.queued && t.a.base == s.a.base && t.b.taken == s.b.taken && Next(t.a) == s.b.taken
      && (Next(s.a) < s.b.taken || s.b.link.ackReq ==> t.b.link.ackReq)
    decreases s.b.taken - Next(s.a)
  {
    if Next(s.a) == s.b.taken {
      moves := [];
    } else {
      MoreToSend(s.a);
      var one := OnePacket(s);
      var rest := CatchUp(Run(s, one));
      moves := one + rest;
      RunConcat(s, one, rest);
    }
  }

  /** At least one more packet is acknowledged. */
  lemma OneRound(s: Net) returns (moves: seq<Move>)
    requires Calm(s) && s.a.base < |s.a.queued|
    ensures Unfed(moves)
    ensures var t := Run(s, moves);
      Calm(t) && t.a.queued == s.a.queued && t.a.base > s.a.base
  {
    var one := TimeOut(s);
    var s1 := Run(s, one);
    var two := AheadOfAcks(s1);
    var s2 := Run(s1, two);
    var three := OneAck(s2);
    var rest := two + three;
    moves := one + rest;
    RunConcat(s1, two, three);
    RunConcat(s, one, rest);
  }

  /** After a timeout: the peer owes an acknowledgement of more than it has acknowledged. */
  lemma AheadOfAcks(s: Net) returns (moves: seq<Move>)
    requires Calm(s) && s.a.base < |s.a.queued| && s.a.link.unack == []
    ensures Unfed(moves)
    ensures var t := Run(s, moves);
      && Calm(t) && t.a.queued == s.a.queued && t.b.link.ackReq && s.a.base < t.b.taken <= Next(t.a)
  {
    moves := CatchUp(s);
    if s.b.taken == s.a.base {
      var t := Run(s, moves);
      MoreToSend(t.a);
      var more := OnePacket(t);
      RunConcat(s, moves, more);
      moves := moves + more;
    }
  }

  lemma {:induction false} AllRounds(s: Net) returns (moves: seq<Move>)
    requires Calm(s)
    ensures Unfed(moves)
    ensures var t := Run(s, moves);
      Calm(t) && t.a.queued == s.a.queued && t.a.base == |s.a.queued|
    decreases |s.a.queued| - s.a.base
  {
    if s.a.base == |s.a.queued| {
      moves := [];
    } else {
      var one := OneRound(s);
      var rest := AllRounds(Run(s, one));
      moves := one + rest;
      RunConcat(s, one, rest);
    }
  }

  // ----- The other direction -----

  function Mirror(m: Move): Move {
    Move(if m.side == A then B else A, m.act)
  }

  function MirrorAll(moves: seq<Move>): seq<Move> {
    if moves == [] then [] else MirrorAll(moves[..|moves| - 1]) + [Mirror(moves[|moves| - 1])]
  }

  /** Exchanging the endpoints exchanges them in every run. */
  lemma {:induction false} RunMirrored(s: Net, moves: seq<Move>)
    ensures Run(Flip(s), MirrorAll(moves)) == Flip(Run(s, moves))
  {
    if moves != [] {
      var front, last := moves[..|moves| - 1], moves[|moves| - 1];
      RunMirrored(s, front);
      RunOne(Flip(s), MirrorAll(front), Mirror(last));
    }
  }

  lemma {:induction false} MirroredUnfed(moves: seq<Move>)
    requires Unfed(moves)
    ensures Unfed(MirrorAll(moves))
  {
    if moves != [] {
      MirroredUnfed(moves[..|moves| - 1]);
    }
  }

  /** Nothing is queued at `n` on the way to `m`, and nothing acknowledged is forgotten. */
  predicate Onward(n: Node, m: Node) {
    m.queued == n.queued && m.base >= n.base
  }

  lemma StepOnward(s: Net, act: Action)
    requires !Queues(act)
    ensures Onward(s.a, StepA(s, act).a) && Onward(s.b, StepA(s, act).b)
  {}

  lemma {:induction false} RunOnward(s: Net, moves: seq<Move>)
    requires Unfed(moves)
    ensures Onward(s.a, Run(s, moves).a) && Onward(s.b, Run(s, moves).b)
  {
    if moves != [] {
      var front, last := moves[..|moves| - 1], moves[|moves| - 1];
      RunOnward(s, front);
      if last.side == A {
        StepOnward(Run(s, front), last.act);
      } else {
        StepOnward(Flip(Run(s, front)), last.act);
      }
    }
  }

  lemma CalmMirrored(s: Net)
    requires Calm(s)
    ensures Calm(Flip(s))
  {}

  /** The rounds of the other endpoint. */
  lemma OtherRounds(s: Net) returns (moves: seq<Move>)
    requires Calm(s)
    ensures Unfed(moves) && Calm(Run(s, moves)) && Run(s, moves).b.base == |s.b.queued|
  {
    CalmMirrored(s);
    var rounds := AllRounds(Flip(s));
    moves := MirrorAll(rounds);
    RunMirrored(Flip(s), rounds);
    MirroredUnfed(rounds);
    assert Flip(Flip(s)) == s;
    CalmMirrored(Run(Flip(s), rounds));
  }

  /** Both endpoints' packets, from a calm state. */
  lemma BothRounds(s: Net) returns (moves: seq<Move>)
    requires Calm(s)
    ensures var t := Run(s, moves);
      Unfed(moves) && Calm(t) && t.a.base == |t.a.queued| && t.b.base == |t.b.queued|
  {
    var one := AllRounds(s);
    var s1 := Run(s, one);
    var two := OtherRounds(s1);
    moves := one + two;
    RunConcat(s, one, two);
    RunOnward(s1, two);
  }

  /** What was queued at `s` by then is all with `r`, handed up once and in order, and acknowledged. */
  predicate Across(was: Node, s: Node, r: Node) {
    && s.queued == was.queued && RelOnly(r.link.up) == was.queued
    && s.base == |was.queued| && s.link.unack == [] && s.link.rel == []
  }

  /**
   * From every reachable state there is one continuation after which every packet queued so far, at
   * either end, was handed up at the other, once and in order, and acknowledged.
   */
  lemma DeliveryPossible(crcA: bool, crcB: bool, moves: seq<Move>) returns (more: seq<Move>)
    ensures var s, t := Run(NewNet(crcA, crcB), moves), Run(NewNet(crcA, crcB), moves + more);
      Across(s.a, t.a, t.b) && Across(s.b, t.b, t.a)
  {
    var start := NewNet(crcA, crcB);
    ReachableOk(crcA, crcB, moves);
    var s := Run(start, moves);
    var calm := SettleDown(s);
    var rest := BothRounds(Run(s, calm));
    more := calm + rest;
    RunConcat(start, moves, more);
    RunConcat(s, calm, rest);
    RunOnward(s, more);
    var t := Run(s, more);
    AllAcross(t);
    CalmMirrored(t);
    AllAcross(Flip(t));
  }

  lemma AllAcross(t: Net)
    requires Calm(t) && t.a.base == |t.a.queued|
    ensures RelOnly(t.b.link.up) == t.a.queued && t.a.link.unack == [] && t.a.link.rel == []
  {
    assert t.a.queued[|t.a.queued|..] == [];
    assert t.a.queued[..|t.a.queued|] == t.a.queued;
    assert |t.a.link.unack + t.a.link.rel| == 0;
    assert Got(t.b) == RelOnly(t.b.link.up) + [];
  }

  /**
   * The network's steps are the driver's: arrival and finish of a frame leave the link as receiving
   * the frame's octets does.
   */
  lemma ArrivesAsOctets(n: Node, x: Flight, rx: H5Codec.Rx)
    requires n.busy.None? && H5Codec.Sendable(x.frame)
    requires H5Codec.RxOk(rx) && (rx.state == H5Codec.Start || rx.state == H5Codec.Delimiter)
    ensures var m := ArriveStep(n, x);
      H5Codec.Recv(H5Codec.H5(n.link, rx), H5Codec.Encode(x.frame), None).link
        == (if m.busy.Some? then FinishStep(m) else m).link
  {
    H5RoundTrip.RecvEncoded(H5Codec.H5(n.link, rx), x.frame);
  }
}
