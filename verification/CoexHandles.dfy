/** One record per connection handle, over every run. */
module CoexHandles {
  import opened Bytes
  import opened Coex
  import opened CoexRun
  import opened CoexLaws

  /** Handles of 12 bits, each with one record only. */
  predicate Tidy(s: State) {
    Sane(s) && Distinct(s.conns) && forall i :: 0 <= i < |s.conns| ==> s.conns[i].handle < 0x1000
  }

  /** A record is added under a handle of more than 12 bits, which no search will find. */
  predicate AddsWide(s: State, op: Op)
    requires Sane(s)
  {
    && op.Event? && op.mem && (op.m.Connected? || op.m.LeConnected?) && op.m.status == 0
    && op.m.handle >= 0x1000 && FindConn(s.conns, op.m.handle) == |s.conns|
  }

  predicate SameHandles(a: seq<Conn>, b: seq<Conn>) {
    |a| == |b| && forall i :: 0 <= i < |a| ==> a[i].handle == b[i].handle
  }

  lemma SameTidy(s: State, r: State)
    requires Tidy(s) && Sane(r) && SameHandles(s.conns, r.conns)
    ensures Tidy(r)
  {}

  lemma AddedTidy(s: State, r: State, c: Conn, handle: nat)
    requires Tidy(s) && Sane(r) && r.conns == s.conns + [c] && c.handle == handle && FindConn(s.conns, handle) == |s.conns|
    ensures Tidy(r) <==> handle < 0x1000
  {
    assert r.conns[|s.conns|] == c;
  }

  lemma LessTidy(s: State, r: State, i: nat)
    requires Tidy(s) && Sane(r) && OneLess(s.conns, r.conns, i)
    ensures Tidy(r)
  {
    assert forall k :: 0 <= k < |r.conns| ==> r.conns[k] == s.conns[if k < i then k else k + 1];
  }

  lemma ConnectTidy(s: State, handle: nat, kind: nat, mem: bool)
    requires Tidy(s)
    ensures Tidy(Connect(s, handle, kind, mem)) <==> !(mem && handle >= 0x1000 && FindConn(s.conns, handle) == |s.conns|)
  {
    var i, r := FindConn(s.conns, handle), Connect(s, handle, kind, mem);
    if i == |s.conns| && mem {
      AddedTidy(s, r, Begun(handle, kind), handle);
    } else {
      SameTidy(s, r);
    }
  }

  lemma IntervalHandles(s: State, handle: nat, interval: nat)
    requires Sane(s)
    ensures SameHandles(s.conns, HidActiveAt(s, handle, interval).conns)
  {}

  lemma SameBack(s: State, r: State)
    requires Sane(s) && Sane(r) && SameHandles(s.conns, r.conns)
    ensures Tidy(s) <==> Tidy(r)
  {
    if Tidy(r) {
      SameTidy(r, s);
    }
    if Tidy(s) {
      SameTidy(s, r);
    }
  }

  lemma DisconnectTidy(s: State, handle: nat, mem: bool)
    requires Tidy(s)
    ensures Tidy(Apply(s, Disconnected(0, handle), mem))
  {
    Disconnection(s, handle, mem);
    var i := FindConn(s.conns, handle);
    if i < |s.conns| {
      LessTidy(s, Apply(s, Disconnected(0, handle), mem), i);
    }
  }

  lemma LeTidy(t: State, handle: nat, interval: nat, mem: bool)
    requires Tidy(t)
    ensures Tidy(HidActiveAt(Connect(t, handle, 2, mem), handle, interval)) <==> !(mem && handle >= 0x1000 && FindConn(t.conns, handle) == |t.conns|)
  {
    var u := Connect(t, handle, 2, mem);
    ConnectTidy(t, handle, 2, mem);
    IntervalHandles(u, handle, interval);
    SameBack(u, HidActiveAt(u, handle, interval));
  }

  lemma ConnectedTidy(s: State, m: Msg, mem: bool)
    requires Tidy(s) && (m.Connected? || m.LeConnected?) && m.status == 0
    ensures Tidy(Apply(s, m, mem)) <==> !AddsWide(s, Event(m, mem))
  {
    var t := s.(paging := false);
    SameTidy(s, t);
    if m.Connected? {
      ConnectTidy(t, m.handle, if m.link == 0 || m.link == 2 then 1 else 0, mem);
    } else {
      LeTidy(t, m.handle, m.interval, mem);
    }
  }

  lemma EventTidy(s: State, m: Msg, mem: bool)
    requires Tidy(s)
    ensures Tidy(Apply(s, m, mem)) <==> !AddsWide(s, Event(m, mem))
  {
    if (m.Connected? || m.LeConnected?) && m.status == 0 {
      ConnectedTidy(s, m, mem);
    } else if m.Disconnected? && m.status == 0 {
      DisconnectTidy(s, m.handle, mem);
    } else {
      SameTidy(s, Apply(s, m, mem));
    }
  }

  /** One step keeps it exactly if it adds no such record. */
  lemma StepTidy(s: State, op: Op)
    requires Tidy(s)
    ensures Tidy(Step(s, op)) <==> !AddsWide(s, op)
  {
    if op.Event? {
      EventTidy(s, op.m, op.mem);
    } else {
      SignalHandles(s, op);
      SameTidy(s, Step(s, op));
    }
  }

  /** L2CAP signals and media packets leave the handles alone. */
  lemma SignalHandles(s: State, op: Op)
    requires Sane(s) && !op.Event?
    ensures SameHandles(s.conns, Step(s, op).conns)
  {
    match op
    case Requested(handle, psm, scid, out, mem, junk) => RequestHandles(s, handle, psm, scid, out, mem, junk);
    case Responded(handle, dcid, scid, out, result) => ResponseHandles(s, handle, dcid, scid, out, result);
    case Released(handle, dcid, scid, out) => ReleaseHandles(s, handle, dcid, scid, out);
    case Media(handle, cid, out, busy) => MediaHandles(s, handle, cid, out, busy);
  }

  lemma RequestHandles(s: State, handle: nat, psm: nat, scid: nat, out: bool, mem: bool, junk: bool)
    requires Sane(s)
    ensures SameHandles(s.conns, ConReq(s, handle, psm, scid, out, mem, junk).conns)
  {}

  lemma ResponseHandles(s: State, handle: nat, dcid: nat, scid: nat, out: bool, result: nat)
    requires Sane(s)
    ensures SameHandles(s.conns, ConRsp(s, handle, dcid, scid, out, result).conns)
  {}

  lemma ReleaseHandles(s: State, handle: nat, dcid: nat, scid: nat, out: bool)
    requires Sane(s)
    ensures SameHandles(s.conns, DisconReq(s, handle, dcid, scid, out).conns)
  {}

  lemma MediaHandles(s: State, handle: nat, cid: nat, out: bool, busy: bool)
    requires Sane(s)
    ensures SameHandles(s.conns, MediaPacket(s, handle, cid, out, busy).conns)
  {}

  predicate AlwaysTidy(ops: seq<Op>) {
    forall n :: 0 <= n <= |ops| ==> Tidy(Run(Start, ops[..n]))
  }

  predicate NeverWide(ops: seq<Op>) {
    forall n :: 0 <= n < |ops| ==> !AddsWide(Run(Start, ops[..n]), ops[n])
  }

  lemma {:induction false} TidyUpTo(ops: seq<Op>, n: nat)
    requires n <= |ops| && NeverWide(ops)
    ensures Tidy(Run(Start, ops[..n]))
  {
    if n == 0 {
      assert ops[..0] == [];
    } else {
      TidyUpTo(ops, n - 1);
      RunNext(ops, n - 1);
      StepTidy(Run(Start, ops[..n - 1]), ops[n - 1]);
    }
  }

  /**
   * Over every run of events, L2CAP signals and media packets: throughout the run there is at most one
   * record per handle, of 12 bits, if and only if no record is ever added under a wider handle.
   */
  lemma OneRecordPerHandle(ops: seq<Op>)
    ensures AlwaysTidy(ops) <==> NeverWide(ops)
  {
    if NeverWide(ops) {
      forall n | 0 <= n <= |ops| ensures Tidy(Run(Start, ops[..n])) {
        TidyUpTo(ops, n);
      }
    }
    if AlwaysTidy(ops) {
      forall n | 0 <= n < |ops| ensures !AddsWide(Run(Start, ops[..n]), ops[n]) {
        assert Tidy(Run(Start, ops[..n])) && Tidy(Run(Start, ops[..n + 1]));
        RunNext(ops, n);
        StepTidy(Run(Start, ops[..n]), ops[n]);
      }
    }
  }

  /** A wide handle that connects twice has two records. */
  lemma WideTwice(link: Byte)
    ensures var once := Event(Connected(0, 0x1001, link), true);
      var s := Run(Start, [once, once]); |s.conns| == 2 && s.conns[0] == s.conns[1]
  {
    var once := Event(Connected(0, 0x1001, link), true);
    var ops := [once, once];
    RunNext(ops, 0);
    RunNext(ops, 1);
    assert ops[..0] == [] && ops[..1] == [once] && ops[..2] == ops;
    var kind := if link == 0 || link == 2 then 1 else 0;
    assert Run(Start, ops[..1]).conns == [] + [Begun(0x1001, kind)];
  }

  // ----- Counting down -----

  function Count(chans: seq<Chan>, handle: nat, p: nat): nat {
    if chans == [] then 0 else (if chans[0].handle == handle && chans[0].profile == p then 1 else 0) + Count(chans[1..], handle, p)
  }

  function Less(n: nat, k: nat): nat {
    if k <= n then n - k else 0
  }

  lemma DropOne(c: Conn, x: Chan, p: nat)
    requires |c.refs| == PROFILES && x.profile < PROFILES && p < PROFILES && p != SINK
    ensures DropChan(c, x).refs[p] == Less(c.refs[p], if x.profile == p then 1 else 0)
  {}

  /** A media channel takes one use of the sink with it. */
  lemma DropSink(c: Conn, x: Chan)
    requires |c.refs| == PROFILES && x.profile < PROFILES && x.profile != SINK
    ensures DropChan(c, x).refs[7] == if x.media && 7 in c.bits then Less(c.refs[7], 1) else c.refs[7]
    ensures 7 in DropChan(c, x).bits <==> 7 in c.bits && !(x.media && c.refs[7] == 1)
  {}

  /** When an L2CAP connection goes, every profile but the sink is given up once for each of its channels. */
  lemma {:induction false} CountedDown(c: Conn, chans: seq<Chan>, handle: nat, p: nat)
    requires |c.refs| == PROFILES && p < PROFILES && p != SINK && forall i :: 0 <= i < |chans| ==> chans[i].profile < PROFILES
    ensures DropChans(c, chans, handle).refs[p] == Less(c.refs[p], Count(chans, handle, p))
    decreases |chans|
  {
    if chans != [] {
      var d := if chans[0].handle == handle then DropChan(c, chans[0]) else c;
      if chans[0].handle == handle {
        DropOne(c, chans[0], p);
      }
      CountedDown(d, chans[1..], handle, p);
    }
  }
}
