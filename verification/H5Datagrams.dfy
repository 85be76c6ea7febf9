/** Packets of the unreliable queue: some may be lost, but none is repeated, reordered or made up. */
module H5Datagrams {
  import opened Bytes
  import opened H5Link
  import opened H5Network

  /** The packets handed up that do not come over the reliable stream. */
  function LooseOnly(s: seq<Packet>): seq<Packet> {
    if s == [] then [] else
      var p := s[|s| - 1];
      if Reliable(p.kind) then LooseOnly(s[..|s| - 1]) else LooseOnly(s[..|s| - 1]) + [p]
  }

  /** What an unreliable packet looks like at the other end: audio and vendor packets are handed up as they are. */
  function Shown(p: Packet): seq<Packet> {
    if p.kind == Sco || p.kind == Vendor then [p] else []
  }

  /** The packets at some places of a queue, as the other end sees them. */
  function Picked(q: seq<Packet>, places: seq<nat>): seq<Packet>
    requires forall i :: 0 <= i < |places| ==> places[i] < |q|
  {
    if places == [] then [] else Picked(q, places[..|places| - 1]) + Shown(q[places[|places| - 1]])
  }

  /** The packet a frame brings besides the reliable stream. */
  function LoosePayload(f: Frame): seq<Packet> {
    var k := PassedAs(f);
    if k.Some? && !Reliable(k.value) then [Packet(k.value, f.data)] else []
  }

  /** Handed up, or about to be. */
  function LooseGot(n: Node): seq<Packet> {
    LooseOnly(n.link.up) + if n.busy.Some? then LoosePayload(n.busy.value.frame) else []
  }

  predicate Rising(s: seq<nat>) {
    forall i, j :: 0 <= i < j < |s| ==> s[i] < s[j]
  }

  /** The unreliable queue is what was queued and not framed yet. */
  predicate Waiting(n: Node) {
    && n.gone <= |n.loose| && n.link.unrel == n.loose[n.gone..]
    && (forall i :: 0 <= i < |n.loose| ==> Loose(n.loose[i].kind))
    && (forall i :: 0 <= i < |n.link.rel| ==> Reliable(n.link.rel[i].kind))
    && (forall i :: 0 <= i < |n.link.unack| ==> Reliable(n.link.unack[i].kind))
  }

  /** A frame with a place brings the packet of that place, any other nothing of the kind. */
  predicate Brings(q: seq<Packet>, gone: nat, x: Flight) {
    if x.place.Some? then x.place.value < gone <= |q| && LoosePayload(x.frame) == Shown(q[x.place.value])
    else LoosePayload(x.frame) == []
  }

  /** On the line places rise, and they lie above all that was accepted. */
  predicate OnLine(q: seq<Packet>, gone: nat, heard: seq<nat>, line: seq<Flight>) {
    && (forall i :: 0 <= i < |line| ==> Brings(q, gone, line[i]))
    && (forall i, j :: 0 <= i < j < |line| && line[i].place.Some? && line[j].place.Some? ==> line[i].place.value < line[j].place.value)
    && (forall i, j :: 0 <= i < |line| && line[i].place.Some? && 0 <= j < |heard| ==> heard[j] < line[i].place.value)
  }

  /** What was accepted is what was queued at the places noted. */
  predicate Accepted(q: seq<Packet>, gone: nat, n: Node) {
    && gone <= |q| && Rising(n.heard) && (forall i :: 0 <= i < |n.heard| ==> n.heard[i] < gone)
    && LooseGot(n) == Picked(q, n.heard)
  }

  predicate LooseDir(s: Node, r: Node, line: seq<Flight>) {
    Waiting(s) && OnLine(s.loose, s.gone, r.heard, line) && Accepted(s.loose, s.gone, r)
  }

  predicate LooseInv(s: Net) {
    LooseDir(s.a, s.b, s.ab) && LooseDir(s.b, s.a, s.ba)
  }

  // ----- Queueing -----

  lemma {:induction false} PickedMore(q: seq<Packet>, p: Packet, places: seq<nat>)
    requires forall i :: 0 <= i < |places| ==> places[i] < |q|
    ensures Picked(q + [p], places) == Picked(q, places)
  {
    if places != [] {
      PickedMore(q, p, places[..|places| - 1]);
    }
  }

  lemma OnLineMore(q: seq<Packet>, p: Packet, gone: nat, heard: seq<nat>, line: seq<Flight>)
    requires OnLine(q, gone, heard, line)
    ensures OnLine(q + [p], gone, heard, line)
  {
    forall i | 0 <= i < |line| ensures Brings(q + [p], gone, line[i]) {
      assert Brings(q, gone, line[i]);
    }
  }

  lemma WaitingMore(n: Node, m: Node, p: Packet, rel: bool, loose: bool)
    requires Waiting(n) && m == Noted(n, m.link, p, rel, loose) && (rel ==> Reliable(p.kind)) && (loose ==> Loose(p.kind))
    requires m.link == n.link.(rel := if rel then n.link.rel + [p] else n.link.rel,
                               unrel := if loose then n.link.unrel + [p] else n.link.unrel)
    ensures Waiting(m)
  {
    if loose {
      assert m.loose[n.gone..] == n.loose[n.gone..] + [p];
    }
  }

  lemma QueuedLoosely(n: Node, m: Node, r: Node, line: seq<Flight>, p: Packet, rel: bool, loose: bool)
    requires LooseDir(n, r, line) && Waiting(m) && m == Noted(n, m.link, p, rel, loose)
    ensures LooseDir(m, r, line)
  {
    if loose {
      OnLineMore(n.loose, p, n.gone, r.heard, line);
      PickedMore(n.loose, p, r.heard);
    }
  }

  /** What concerns only the sending half of a node leaves what it received alone. */
  lemma SameHearing(s: Node, r: Node, r': Node, line: seq<Flight>)
    requires LooseDir(s, r, line) && r'.heard == r.heard && r'.busy == r.busy && r'.link.up == r.link.up
    ensures LooseDir(s, r', line)
  {}

  lemma SubmitLoosely(s: Net, p: Packet)
    requires LooseInv(s)
    ensures LooseInv(StepA(s, Submit(p)))
  {
    var fits := |p.data| <= 4095;
    var m, rel, loose := SubmitStep(s.a, p), fits && (p.kind == Acl || p.kind == Command), fits && Loose(p.kind);
    WaitingMore(s.a, m, p, rel, loose);
    QueuedLoosely(s.a, m, s.b, s.ab, p, rel, loose);
    SameHearing(s.b, s.a, m, s.ba);
  }

  lemma ReportLoosely(s: Net, p: Packet)
    requires LooseInv(s)
    ensures LooseInv(StepA(s, Report(p)))
  {
    var fits := |p.data| <= 4095;
    var m, rel, loose := ReportStep(s.a, p), fits && (p.kind == Acl || p.kind == Event), fits && Loose(p.kind);
    WaitingMore(s.a, m, p, rel, loose);
    QueuedLoosely(s.a, m, s.b, s.ab, p, rel, loose);
    SameHearing(s.b, s.a, m, s.ba);
  }

  // ----- Sending -----

  /** The first packet of the unreliable queue goes first, and only it has a place. */
  lemma SentBrings(n: Node, mem: (bool, bool, bool))
    requires Waiting(n) && Sent(n, mem) != []
    ensures var x, m := Sent(n, mem)[0], SendStep(n, mem);
      Brings(n.loose, m.gone, x) && (if LooseNext(n, mem) then x.place == Some(n.gone) && m.gone == n.gone + 1 else x.place.None? && m.gone == n.gone)
  {
    if LooseNext(n, mem) {
      assert n.link.unrel[0] == n.loose[n.gone];
    }
  }

  lemma SentWaiting(n: Node, mem: (bool, bool, bool))
    requires Waiting(n)
    ensures Waiting(SendStep(n, mem)) && SendStep(n, mem).loose == n.loose
  {
    var m := SendStep(n, mem);
    if LooseNext(n, mem) {
      assert m.link.unrel == n.loose[n.gone..][1..] == n.loose[n.gone + 1..];
    }
  }

  lemma OnLineGone(q: seq<Packet>, gone: nat, gone': nat, heard: seq<nat>, line: seq<Flight>)
    requires OnLine(q, gone, heard, line) && gone <= gone' <= |q|
    ensures OnLine(q, gone', heard, line)
  {
    forall i | 0 <= i < |line| ensures Brings(q, gone', line[i]) {
      assert Brings(q, gone, line[i]);
    }
  }

  lemma OnLineLast(q: seq<Packet>, gone: nat, gone': nat, heard: seq<nat>, line: seq<Flight>, x: Flight)
    requires OnLine(q, gone, heard, line) && gone <= gone' <= |q| && (forall i :: 0 <= i < |heard| ==> heard[i] < gone)
    requires Brings(q, gone', x) && (x.place.Some? ==> x.place.value == gone)
    ensures OnLine(q, gone', heard, line + [x])
  {
    OnLineGone(q, gone, gone', heard, line);
    var now := line + [x];
    forall i, j | 0 <= i < j < |now| && now[i].place.Some? && now[j].place.Some? ensures now[i].place.value < now[j].place.value {
      if j == |line| {
        assert Brings(q, gone, line[i]);
      }
    }
  }

  lemma SendLoosely(s: Net, mem: (bool, bool, bool))
    requires LooseInv(s)
    ensures LooseInv(StepA(s, Send(mem)))
  {
    var m, out := SendStep(s.a, mem), Sent(s.a, mem);
    SentWaiting(s.a, mem);
    SameHearing(s.b, s.a, m, s.ba);
    if out == [] {
      assert s.ab + out == s.ab;
    } else {
      SentBrings(s.a, mem);
      OnLineLast(s.a.loose, s.a.gone, m.gone, s.b.heard, s.ab, out[0]);
      assert s.ab + out == s.ab + [out[0]];
    }
  }

  // ----- Receiving -----

  lemma OnLineFirst(q: seq<Packet>, gone: nat, heard: seq<nat>, line: seq<Flight>, heard': seq<nat>)
    requires OnLine(q, gone, heard, line) && line != []
    requires heard' == heard || (line[0].place.Some? && heard' == heard + [line[0].place.value])
    ensures OnLine(q, gone, heard', line[1..])
  {
    var rest := line[1..];
    forall i | 0 <= i < |rest| ensures Brings(q, gone, rest[i]) {
      assert rest[i] == line[i + 1];
    }
  }

  lemma PickedOne(q: seq<Packet>, places: seq<nat>, i: nat)
    requires i < |q| && forall k :: 0 <= k < |places| ==> places[k] < |q|
    ensures Picked(q, places + [i]) == Picked(q, places) + Shown(q[i])
  {
    assert (places + [i])[..|places|] == places;
  }

  lemma RisingOne(s: seq<nat>, i: nat, bound: nat)
    requires Rising(s) && i < bound && forall j :: 0 <= j < |s| ==> s[j] < i
    ensures Rising(s + [i]) && forall j :: 0 <= j < |s + [i]| ==> (s + [i])[j] < bound
  {}

  lemma GotOne(n: Node, x: Flight)
    requires n.busy.None? && Admits(n.link, x.frame)
    ensures LooseGot(ArriveStep(n, x)) == LooseGot(n) + LoosePayload(x.frame)
  {
    assert LooseOnly(n.link.up) + [] == LooseOnly(n.link.up);
  }

  lemma AcceptedOne(q: seq<Packet>, gone: nat, n: Node, x: Flight)
    requires Accepted(q, gone, n) && n.busy.None? && Brings(q, gone, x) && Admits(n.link, x.frame)
    requires x.place.Some? ==> forall j :: 0 <= j < |n.heard| ==> n.heard[j] < x.place.value
    ensures Accepted(q, gone, ArriveStep(n, x))
  {
    GotOne(n, x);
    if x.place.Some? {
      PickedOne(q, n.heard, x.place.value);
      RisingOne(n.heard, x.place.value, gone);
    } else {
      assert LooseGot(n) + [] == LooseGot(n);
    }
  }

  lemma ArriveLoosely(s: Net)
    requires LooseInv(s) && s.a.busy.None? && s.ba != []
    ensures LooseInv(StepA(s, Arrive))
  {
    var x := s.ba[0];
    var m := ArriveStep(s.a, x);
    assert Brings(s.b.loose, s.b.gone, x);
    if Admits(s.a.link, x.frame) {
      AcceptedOne(s.b.loose, s.b.gone, s.a, x);
    }
    OnLineFirst(s.b.loose, s.b.gone, s.a.heard, s.ba, m.heard);
  }

  lemma {:induction false} LooseOnlyOne(s: seq<Packet>, p: Packet)
    ensures LooseOnly(s + [p]) == LooseOnly(s) + if Reliable(p.kind) then [] else [p]
  {
    assert (s + [p])[..|s|] == s;
  }

  lemma FinishLoosely(s: Net)
    requires LooseInv(s) && s.a.busy.Some?
    ensures LooseInv(StepA(s, Finish))
  {
    var f, m := s.a.busy.value.frame, FinishStep(s.a);
    var k := PassedAs(f);
    if k.Some? {
      LooseOnlyOne(s.a.link.up, Packet(k.value, f.data));
    }
    assert LooseGot(m) == LooseGot(s.a);
    assert Waiting(m);
  }

  lemma LoseLoosely(s: Net, k: nat)
    requires LooseInv(s) && k < |s.ba|
    ensures LooseInv(StepA(s, Lose(k)))
  {
    var line := s.ba[..k] + s.ba[k + 1..];
    assert forall i :: 0 <= i < |line| ==> line[i] == s.ba[if i < k then i else i + 1];
  }

  lemma TimerLoosely(s: Net, act: Action)
    requires LooseInv(s) && (act.Fire? || act.RollBack?)
    ensures LooseInv(StepA(s, act))
  {
    SameHearing(s.b, s.a, StepA(s, act).a, s.ba);
  }

  lemma StepLoosely(s: Net, act: Action)
    requires LooseInv(s)
    ensures LooseInv(StepA(s, act))
  {
    match act
    case Submit(p) => SubmitLoosely(s, p);
    case Report(p) => ReportLoosely(s, p);
    case Send(mem) => SendLoosely(s, mem);
    case Arrive => if s.a.busy.None? && s.ba != [] { ArriveLoosely(s); }
    case Finish => if s.a.busy.Some? { FinishLoosely(s); }
    case Lose(k) => if k < |s.ba| { LoseLoosely(s, k); }
    case _ => TimerLoosely(s, act);
  }

  lemma {:induction false} RunLoosely(s: Net, moves: seq<Move>)
    requires LooseInv(s)
    ensures LooseInv(Run(s, moves))
  {
    if moves != [] {
      var was, m := Run(s, moves[..|moves| - 1]), moves[|moves| - 1];
      RunLoosely(s, moves[..|moves| - 1]);
      if m.side == A {
        StepLoosely(was, m.act);
      } else {
        StepLoosely(Flip(was), m.act);
      }
    }
  }

  /** What of `s`'s unreliable packets is at `r`, handed up or about to be, and what still waits. */
  predicate AtMostOnce(s: Node, r: Node) {
    && Rising(r.heard) && s.gone <= |s.loose| && (forall i :: 0 <= i < |r.heard| ==> r.heard[i] < s.gone)
    && LooseGot(r) == Picked(s.loose, r.heard)
    && s.link.unrel == s.loose[s.gone..]
  }

  /**
   * In every run, in both directions: the audio and vendor packets handed up are packets the other end
   * queued, at rising places, so each at most once and in order, and nothing queued disappears before
   * it is framed.
   */
  lemma Datagrams(crcA: bool, crcB: bool, moves: seq<Move>)
    ensures var s := Run(NewNet(crcA, crcB), moves); AtMostOnce(s.a, s.b) && AtMostOnce(s.b, s.a)
  {
    RunLoosely(NewNet(crcA, crcB), moves);
  }
}
