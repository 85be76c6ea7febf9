/** The profile bookkeeping over every run of event handlers, L2CAP signals and media packets. */
module CoexRun {
  import opened Bytes
  import opened Coex

  datatype Op =
    | Event(m: Msg, mem: bool)
    | Requested(handle: nat, psm: nat, scid: nat, out: bool, mem: bool, junk: bool)
    | Responded(handle: nat, dcid: nat, scid: nat, out: bool, result: nat)
    | Released(handle: nat, dcid: nat, scid: nat, out: bool)
    | Media(handle: nat, cid: nat, out: bool, busy: bool)

  function Step(s: State, op: Op): (r: State)
    requires Sane(s)
    ensures Sane(r)
  {
    match op
    case Event(m, mem) => Apply(s, m, mem)
    case Requested(handle, psm, scid, out, mem, junk) => ConReq(s, handle, psm, scid, out, mem, junk)
    case Responded(handle, dcid, scid, out, result) => ConRsp(s, handle, dcid, scid, out, result)
    case Released(handle, dcid, scid, out) => DisconReq(s, handle, dcid, scid, out)
    case Media(handle, cid, out, busy) => MediaPacket(s, handle, cid, out, busy)
  }

  function Run(s: State, ops: seq<Op>): (r: State)
    requires Sane(s)
    ensures Sane(r)
  {
    if ops == [] then s else Step(Run(s, ops[..|ops| - 1]), ops[|ops| - 1])
  }

  /** The bit of every profile but the interval one tells whether its 8-bit counter is not zero. */
  predicate Agrees(c: Conn) {
    && |c.refs| == PROFILES && (forall p :: 0 <= p < PROFILES ==> c.refs[p] < 256)
    && (forall p :: 0 <= p < PROFILES && p != HID_INTERVAL ==> (p in c.bits <==> c.refs[p] != 0))
  }

  /** Between events the interval bit goes with HID. */
  predicate ConnOk(c: Conn) {
    Agrees(c) && (HID_INTERVAL in c.bits ==> HID in c.bits)
  }

  predicate Inv(s: State) {
    && Sane(s)
    && (forall i :: 0 <= i < |s.conns| ==> ConnOk(s.conns[i]))
    && (forall i :: 0 <= i < |s.chans| ==> s.chans[i].profile != HID_INTERVAL)
  }

  /** A successful response on a known channel of a live connection whose counter for it is at its end. */
  predicate Wraps(s: State, op: Op)
    requires Sane(s)
  {
    op.Responded? && op.result % 256 == 0 &&
    var i := FindCid(s.chans, op.out, op.handle, op.scid);
    var k := FindConn(s.conns, op.handle);
    i < |s.chans| && k < |s.conns| && s.conns[k].refs[s.chans[i].profile] == 255
  }

  // ----- One connection -----

  /** Counting up keeps a connection in order exactly if the counter does not wrap. */
  lemma AddExactly(c: Conn, p: nat)
    requires ConnOk(c) && p < PROFILES && p != HID_INTERVAL
    ensures ConnOk(UpdateProfile(c, p, true)) <==> c.refs[p] != 255
  {
    var d := UpdateProfile(c, p, true);
    if c.refs[p] == 255 {
      assert d.refs[p] == 0 && p in d.bits;
    }
  }

  lemma RemoveKeeps(c: Conn, p: nat)
    requires ConnOk(c) && p < PROFILES && p != HID_INTERVAL
    ensures ConnOk(UpdateProfile(c, p, false))
  {}

  lemma ReleaseKeeps(c: Conn, p: nat)
    requires ConnOk(c) && p < PROFILES && p != HID_INTERVAL
    ensures ConnOk(ReleaseProfile(c, p))
  {
    RemoveKeeps(c, p);
    RemoveKeeps(UpdateProfile(c, p, false), SINK);
  }

  lemma HidActiveKeeps(c: Conn, interval: nat)
    requires ConnOk(c)
    ensures ConnOk(HidActive(c, interval))
  {}

  lemma BegunOk(handle: nat, kind: nat)
    ensures ConnOk(Begun(handle, kind))
  {}

  lemma DropChanKeeps(c: Conn, x: Chan)
    requires Agrees(c) && x.profile < PROFILES && x.profile != HID_INTERVAL
    ensures Agrees(DropChan(c, x))
  {}

  /** Bits and counters agree also while a connection is taken down, where the interval bit may stay behind. */
  lemma {:induction false} DropChansKeep(c: Conn, chans: seq<Chan>, handle: nat)
    requires Agrees(c)
    requires forall i :: 0 <= i < |chans| ==> chans[i].profile < PROFILES && chans[i].profile != HID_INTERVAL
    ensures Agrees(DropChans(c, chans, handle))
    decreases |chans|
  {
    if chans != [] {
      DropChanKeeps(c, chans[0]);
      DropChansKeep(if chans[0].handle == handle then DropChan(c, chans[0]) else c, chans[1..], handle);
    }
  }

  // ----- Every step -----

  /** Replacing one record by a sound one. */
  lemma ReplaceKeeps(s: State, k: nat, c: Conn)
    requires Inv(s) && k < |s.conns| && ConnOk(c)
    ensures Inv(s.(conns := s.conns[k := c]))
  {}

  lemma HidActiveAtKeeps(s: State, handle: nat, interval: nat)
    requires Inv(s)
    ensures Inv(HidActiveAt(s, handle, interval))
  {
    var i := FindConn(s.conns, handle);
    if i < |s.conns| {
      HidActiveKeeps(s.conns[i], interval);
      ReplaceKeeps(s, i, HidActive(s.conns[i], interval));
    }
  }

  lemma ConnectKeeps(s: State, handle: nat, kind: nat, mem: bool)
    requires Inv(s)
    ensures Inv(Connect(s, handle, kind, mem))
  {
    var i := FindConn(s.conns, handle);
    BegunOk(handle, kind);
    if i < |s.conns| {
      BegunOk(s.conns[i].handle, kind);
      ReplaceKeeps(s, i, Begun(s.conns[i].handle, kind));
    }
  }

  /** Taking a connection down touches no other record. */
  lemma TakeDownOthers(s: State, i: nat, handle: nat)
    requires Inv(s) && i < |s.conns|
    ensures var t := TakeDown(s, i, handle);
      && (forall k :: 0 <= k < |t.conns| && k != i ==> t.conns[k] == s.conns[k])
      && (forall k :: 0 <= k < |t.chans| ==> t.chans[k] in s.chans)
  {}

  lemma DisconnectKeeps(s: State, handle: nat)
    requires Inv(s)
    ensures Inv(Disconnect(s, handle))
  {
    var i := FindConn(s.conns, handle);
    if i < |s.conns| {
      TakeDownOthers(s, i, handle);
      var t := TakeDown(s, i, handle);
      var rest := WithoutConn(t, i).conns;
      forall k | 0 <= k < |rest| ensures ConnOk(rest[k]) {
        assert rest[k] == s.conns[if k < i then k else k + 1];
      }
    }
  }

  lemma ConnectedKeeps(s: State, status: Byte, handle: nat, link: Byte, mem: bool)
    requires Inv(s)
    ensures Inv(Apply(s, Connected(status, handle, link), mem))
  {
    ConnectKeeps(s.(paging := false), handle, if link == 0 || link == 2 then 1 else 0, mem);
  }

  lemma LeConnectedKeeps(s: State, status: Byte, handle: nat, interval: nat, mem: bool)
    requires Inv(s)
    ensures Inv(Apply(s, LeConnected(status, handle, interval), mem))
  {
    var t := s.(paging := false);
    ConnectKeeps(t, handle, 2, mem);
    HidActiveAtKeeps(Connect(t, handle, 2, mem), handle, interval);
  }

  lemma DisconnectedKeeps(s: State, status: Byte, handle: nat, mem: bool)
    requires Inv(s)
    ensures Inv(Apply(s, Disconnected(status, handle), mem))
  {
    DisconnectKeeps(s.(pairing := false), handle);
  }

  /** Events that only touch flags and versions. */
  lemma FlagsKeep(s: State, m: Msg, mem: bool)
    requires Inv(s) && !m.Interval? && !m.Connected? && !m.LeConnected? && !m.Disconnected?
    ensures Inv(Apply(s, m, mem))
  {
    assert Apply(s, m, mem).conns == s.conns && Apply(s, m, mem).chans == s.chans;
  }

  lemma ApplyKeeps(s: State, m: Msg, mem: bool)
    requires Inv(s)
    ensures Inv(Apply(s, m, mem))
  {
    match m
    case Interval(handle, interval) => HidActiveAtKeeps(s, handle, interval);
    case Connected(status, handle, link) => ConnectedKeeps(s, status, handle, link, mem);
    case LeConnected(status, handle, interval) => LeConnectedKeeps(s, status, handle, interval, mem);
    case Disconnected(status, handle) => DisconnectedKeeps(s, status, handle, mem);
    case _ => FlagsKeep(s, m, mem);
  }

  lemma UpdateAtExactly(s: State, handle: nat, profile: nat)
    requires Inv(s) && profile < PROFILES && profile != HID_INTERVAL
    ensures var k := FindConn(s.conns, handle);
      Inv(UpdateAt(s, handle, profile, true)) <==> k == |s.conns| || s.conns[k].refs[profile] != 255
  {
    var k := FindConn(s.conns, handle);
    if k < |s.conns| {
      var c := UpdateProfile(s.conns[k], profile, true);
      AddExactly(s.conns[k], profile);
      if ConnOk(c) {
        ReplaceKeeps(s, k, c);
      } else {
        assert UpdateAt(s, handle, profile, true).conns[k] == c;
      }
    }
  }

  lemma ConReqKeeps(s: State, handle: nat, psm: nat, scid: nat, out: bool, mem: bool, junk: bool)
    requires Inv(s)
    ensures Inv(ConReq(s, handle, psm, scid, out, mem, junk))
  {}

  /** A response keeps the bookkeeping exactly if it does not wrap a counter. */
  lemma ConRspExactly(s: State, handle: nat, dcid: nat, scid: nat, out: bool, result: nat)
    requires Inv(s)
    ensures Inv(ConRsp(s, handle, dcid, scid, out, result)) <==> !Wraps(s, Responded(handle, dcid, scid, out, result))
  {
    var i := FindCid(s.chans, out, handle, scid);
    if i < |s.chans| {
      var c := s.chans[i];
      UpdateAtExactly(s.(chans := s.chans[i := if out then c.(scid := dcid) else c.(dcid := dcid)]), handle, c.profile);
    }
  }

  lemma RemoveChanKeeps(s: State, i: nat)
    requires Inv(s) && i < |s.chans|
    ensures Inv(s.(chans := s.chans[..i] + s.chans[i + 1..]))
  {}

  lemma DisconReqKeeps(s: State, handle: nat, dcid: nat, scid: nat, out: bool)
    requires Inv(s)
    ensures Inv(DisconReq(s, handle, dcid, scid, out))
  {
    var i := FindBoth(s.chans, handle, if out then dcid else scid, if out then scid else dcid);
    var k := FindConn(s.conns, handle);
    if i < |s.chans| && k < |s.conns| {
      var c := ReleaseProfile(s.conns[k], s.chans[i].profile);
      ReleaseKeeps(s.conns[k], s.chans[i].profile);
      ReplaceKeeps(s, k, c);
      RemoveChanKeeps(s.(conns := s.conns[k := c]), i);
    }
  }

  lemma SinkKeeps(c: Conn)
    requires ConnOk(c) && SINK !in c.bits
    ensures ConnOk(UpdateProfile(c.(bits := c.bits + {SINK}), SINK, true))
  {}

  lemma MediaKeeps(s: State, handle: nat, cid: nat, out: bool, busy: bool)
    requires Inv(s)
    ensures Inv(MediaPacket(s, handle, cid, out, busy))
  {
    var k := FindConn(s.conns, handle);
    if k < |s.conns| && SINK !in s.conns[k].bits {
      SinkKeeps(s.conns[k]);
      ReplaceKeeps(s, k, UpdateProfile(s.conns[k].(bits := s.conns[k].bits + {SINK}), SINK, true));
    }
  }

  /** A step keeps the bookkeeping exactly if it is not a response that wraps a counter. */
  lemma StepExactly(s: State, op: Op)
    requires Inv(s)
    ensures Inv(Step(s, op)) <==> !Wraps(s, op)
  {
    match op
    case Event(m, mem) => ApplyKeeps(s, m, mem);
    case Requested(handle, psm, scid, out, mem, junk) => ConReqKeeps(s, handle, psm, scid, out, mem, junk);
    case Responded(handle, dcid, scid, out, result) => ConRspExactly(s, handle, dcid, scid, out, result);
    case Released(handle, dcid, scid, out) => DisconReqKeeps(s, handle, dcid, scid, out);
    case Media(handle, cid, out, busy) => MediaKeeps(s, handle, cid, out, busy);
  }

  // ----- Every run -----

  /** In every state up to the end. */
  predicate AlwaysOk(ops: seq<Op>) {
    forall n :: 0 <= n <= |ops| ==> Inv(Run(Start, ops[..n]))
  }

  predicate NeverWraps(ops: seq<Op>) {
    forall n :: 0 <= n < |ops| ==> !Wraps(Run(Start, ops[..n]), ops[n])
  }

  lemma RunNext(ops: seq<Op>, n: nat)
    requires n < |ops|
    ensures Run(Start, ops[..n + 1]) == Step(Run(Start, ops[..n]), ops[n])
  {
    assert ops[..n + 1][..n] == ops[..n];
  }

  lemma {:induction false} KeptUpTo(ops: seq<Op>, n: nat)
    requires n <= |ops| && NeverWraps(ops)
    ensures Inv(Run(Start, ops[..n]))
  {
    if n == 0 {
      assert ops[..0] == [];
    } else {
      KeptUpTo(ops, n - 1);
      RunNext(ops, n - 1);
      StepExactly(Run(Start, ops[..n - 1]), ops[n - 1]);
    }
  }

  /**
   * All through a run, on every connection, the bit of a profile is set exactly if its counter is
   * not zero and the interval bit only together with the HID bit: if and only if no step of the run
   * is a successful response whose connection's counter for that profile is at 255.
   */
  lemma ProfilesAgree(ops: seq<Op>)
    ensures AlwaysOk(ops) <==> NeverWraps(ops)
  {
    if NeverWraps(ops) {
      forall n | 0 <= n <= |ops| ensures Inv(Run(Start, ops[..n])) {
        KeptUpTo(ops, n);
      }
    }
    if AlwaysOk(ops) {
      forall n | 0 <= n < |ops| ensures !Wraps(Run(Start, ops[..n]), ops[n]) {
        assert Inv(Run(Start, ops[..n])) && Inv(Run(Start, ops[..n + 1]));
        RunNext(ops, n);
        StepExactly(Run(Start, ops[..n]), ops[n]);
      }
    }
  }

  // ----- A run that breaks it: one response, seen again and again -----

  const Answer: Op := Responded(1, 0x41, 0x40, false, 0)

  /** A connection, a channel request, and `n` times the same successful response. */
  function Answered(n: nat): seq<Op> {
    if n == 0 then [Event(Connected(0, 1, 1), true), Requested(1, 0x0F, 0x40, true, true, false)]
    else Answered(n - 1) + [Answer]
  }

  /** One connection and one channel, `n` responses counted. */
  predicate OneChannel(s: State, n: nat) {
    && |s.conns| == 1 && s.conns[0].handle == 1 && |s.conns[0].refs| == PROFILES
    && s.conns[0].refs[PAN] == n % 256 && (n > 0 ==> PAN in s.conns[0].bits)
    && |s.chans| == 1 && s.chans[0].handle == 1 && s.chans[0].scid == 0x40 && s.chans[0].profile == PAN
  }

  lemma Connected1(s: State)
    requires s == Step(Start, Event(Connected(0, 1, 1), true))
    ensures |s.conns| == 1 && s.conns[0] == Conn(1, 0, {}, NO_REFS) && s.chans == []
  {}

  lemma Requested1(s: State)
    requires s.conns == [Conn(1, 0, {}, NO_REFS)] && s.chans == []
    ensures Sane(s) && OneChannel(Step(s, Requested(1, 0x0F, 0x40, true, true, false)), 0)
  {}

  lemma CountedOnce(c: Conn, n: nat, d: Conn)
    requires |c.refs| == PROFILES && c.refs[PAN] == n % 256 && (n > 0 ==> PAN in c.bits) && d == UpdateProfile(c, PAN, true)
    ensures |d.refs| == PROFILES && d.refs[PAN] == (n + 1) % 256 && PAN in d.bits && d.handle == c.handle
  {
    assert (n % 256 + 1) % 256 == (n + 1) % 256;
  }

  lemma FoundFirst(s: State, n: nat)
    requires OneChannel(s, n)
    ensures FindConn(s.conns, 1) == 0 && FindCid(s.chans, false, 1, 0x40) == 0
  {}

  lemma Answered1(s: State, n: nat)
    requires Sane(s) && OneChannel(s, n)
    ensures OneChannel(Step(s, Answer), n + 1)
  {
    var c, d := s.conns[0], UpdateProfile(s.conns[0], PAN, true);
    FoundFirst(s, n);
    CountedOnce(c, n, d);
    var t := Step(s, Answer);
    assert t.conns == s.conns[0 := d] && t.chans == s.chans[0 := s.chans[0].(dcid := 0x41)];
  }

  lemma {:induction false} AnsweredState(n: nat)
    ensures OneChannel(Run(Start, Answered(n)), n)
  {
    var ops := Answered(n);
    if n == 0 {
      var first := ops[0];
      assert ops[..1] == [first] && [first][..0] == [];
      assert Run(Start, [first]) == Step(Run(Start, []), first);
      var s := Step(Start, first);
      Connected1(s);
      assert s.conns == [Conn(1, 0, {}, NO_REFS)];
      Requested1(s);
    } else {
      AnsweredState(n - 1);
      assert ops[..|ops| - 1] == Answered(n - 1);
      Answered1(Run(Start, Answered(n - 1)), n - 1);
    }
  }

  /** After 256 of them the bit is set and the counter is zero. */
  lemma AnsweredTooOften(n: nat)
    requires n == 256
    ensures var s := Run(Start, Answered(n));
      |s.conns| == 1 && |s.conns[0].refs| == PROFILES && PAN in s.conns[0].bits && s.conns[0].refs[PAN] == 0
    ensures !AlwaysOk(Answered(n)) && !NeverWraps(Answered(n))
  {
    AnsweredState(n);
    var ops := Answered(n);
    assert ops[..|ops|] == ops;
    assert !Inv(Run(Start, ops[..|ops|]));
    ProfilesAgree(ops);
  }
}
