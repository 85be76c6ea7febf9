/** What the coexistence handlers are for, each said in terms of the connections and channels it leaves. */
module CoexLaws {
  import opened Bytes
  import opened Coex

  // ----- The flags -----

  predicate SameLists(s: State, r: State) {
    r.conns == s.conns && r.chans == s.chans
  }

  /** Everything but the lists. */
  predicate SameFlags(s: State, r: State) {
    && r.inquiring == s.inquiring && r.pairing == s.pairing && r.paging == s.paging
    && r.hciRev == s.hciRev && r.lmpSub == s.lmpSub && r.newReport == s.newReport
  }

  /** Which events end or begin inquiry, pairing and paging, and what else is noted; nothing else changes. */
  lemma Flags(s: State, rev: nat, sub: nat, mem: bool)
    requires Sane(s)
    ensures Apply(s, Version(rev, sub), mem) == s.(hciRev := rev, lmpSub := sub)
    ensures Apply(s, InquiryEnd, mem) == s.(inquiring := false)
    ensures Apply(s, PairStart, mem) == s.(pairing := true) && Apply(s, PairEnd, mem) == s.(pairing := false)
    ensures Apply(s, PageStart, mem) == s.(paging := true) && Apply(s, NewReport, mem) == s.(newReport := true)
    ensures Apply(s, Nothing, mem) == s
  {}

  // ----- Connections that go -----

  /** `r` is `s` without the entry at `i`; the others keep their order. */
  predicate OneLess<T(==)>(s: seq<T>, r: seq<T>, i: nat) {
    i < |s| && |r| == |s| - 1 && (forall k :: 0 <= k < i ==> r[k] == s[k]) && (forall k :: i <= k < |r| ==> r[k] == s[k + 1])
  }

  lemma {:induction false} WithoutConcat(a: seq<Chan>, b: seq<Chan>, handle: nat)
    ensures WithoutChans(a + b, handle) == WithoutChans(a, handle) + WithoutChans(b, handle)
    decreases |a|
  {
    if a == [] {
      assert a + b == b;
    } else {
      assert (a + b)[1..] == a[1..] + b;
      WithoutConcat(a[1..], b, handle);
    }
  }

  /** Exactly the channels of other handles remain, each as often as before. */
  lemma {:induction false} WithoutExactly(chans: seq<Chan>, handle: nat)
    ensures forall c :: multiset(WithoutChans(chans, handle))[c] == if c.handle == handle then 0 else multiset(chans)[c]
  {
    if chans != [] {
      WithoutExactly(chans[1..], handle);
      assert chans == [chans[0]] + chans[1..];
    }
  }

  /** A disconnection that failed changes no list. */
  lemma DisconnectionFailed(s: State, status: Byte, handle: nat, mem: bool)
    requires Sane(s) && status != 0
    ensures var r := Apply(s, Disconnected(status, handle), mem); SameLists(s, r) && !r.pairing && SameFlags(s, r.(pairing := s.pairing))
  {}

  /**
   * Before a record goes it is counted down: an L2CAP one by its channels, which go with it, a
   * synchronous one by its audio, a low energy one by HID.
   */
  lemma TakenDown(s: State, i: nat, handle: nat)
    requires Sane(s) && i < |s.conns|
    ensures var r := TakeDown(s, i, handle); var c, d := s.conns[i], r.conns[i];
      && SameFlags(s, r) && OnlyAt(s.conns, r.conns, i)
      && r.chans == (if c.kind == 0 then WithoutChans(s.chans, handle) else s.chans)
      && (c.kind == 0 ==> d == DropChans(c, s.chans, handle))
      && (c.kind == 1 ==> OneLessUse(c, d, 0)) && (c.kind == 2 ==> OneLessUse(c, d, 1)) && (c.kind > 2 ==> d == c)
  {
    Uses(s.conns[i], SCO);
    Uses(s.conns[i], HID);
  }

  lemma Removed(s: State, t: State, i: nat)
    requires Sane(t) && i < |s.conns| == |t.conns| && forall k :: 0 <= k < |s.conns| && k != i ==> t.conns[k] == s.conns[k]
    ensures var r := WithoutConn(t, i); OneLess(s.conns, r.conns, i) && SameFlags(t, r) && r.chans == t.chans
  {}

  /**
   * A disconnection takes away the first record with the masked handle and, for an L2CAP connection,
   * every channel of the handle and no other; without such a record nothing goes.
   */
  lemma Disconnection(s: State, handle: nat, mem: bool)
    requires Sane(s)
    ensures var r := Apply(s, Disconnected(0, handle), mem); var i := FindConn(s.conns, handle);
      && !r.pairing && SameFlags(s, r.(pairing := s.pairing))
      && (i == |s.conns| ==> SameLists(s, r))
      && (i < |s.conns| ==> OneLess(s.conns, r.conns, i) && r.chans == if s.conns[i].kind == 0 then WithoutChans(s.chans, handle) else s.chans)
  {
    var t, i := s.(pairing := false), FindConn(s.conns, handle);
    if i < |s.conns| {
      TakenDown(t, i, handle);
      Removed(t, TakeDown(t, i, handle), i);
    }
  }

  /** No two records have the same handle. */
  predicate Distinct(conns: seq<Conn>) {
    forall i, j :: 0 <= i < j < |conns| ==> conns[i].handle != conns[j].handle
  }

  predicate HasHandle(conns: seq<Conn>, handle: nat) {
    exists i :: 0 <= i < |conns| && conns[i].handle == handle
  }

  /** With distinct handles the connection is then gone, and its channels with it. */
  lemma NoRecordRemains(s: State, handle: nat, mem: bool)
    requires Sane(s) && Distinct(s.conns)
    ensures var r := Apply(s, Disconnected(0, handle), mem);
      && !HasHandle(r.conns, handle % 0x1000)
      && (forall k :: 0 <= k < |s.conns| && s.conns[k].handle != handle % 0x1000 ==> s.conns[k] in r.conns)
      && (HasHandle(s.conns, handle % 0x1000) && s.conns[FindConn(s.conns, handle)].kind == 0 ==>
            forall k :: 0 <= k < |r.chans| ==> r.chans[k].handle != handle)
  {
    Disconnection(s, handle, mem);
    var r, i := Apply(s, Disconnected(0, handle), mem), FindConn(s.conns, handle);
    forall k | 0 <= k < |s.conns| && s.conns[k].handle != handle % 0x1000 ensures s.conns[k] in r.conns {
      if i < |s.conns| {
        assert r.conns[if k < i then k else k - 1] == s.conns[k];
      }
    }
  }

  // ----- Connections that come -----

  /** What a record of a new connection says: synchronous ones run audio, low energy ones count as HID. */
  predicate Fresh(c: Conn, handle: nat, kind: nat) {
    && c.handle == handle && c.kind == kind && |c.refs| == 8
    && c.bits == (if kind == 1 then {0} else if kind == 2 then {1} else {})
    && forall p :: 0 <= p < 8 ==> c.refs[p] == if (kind == 1 && p == 0) || (kind == 2 && p == 1) then 1 else 0
  }

  lemma BegunFresh(handle: nat, kind: nat)
    ensures Fresh(Begun(handle, kind), handle, kind)
  {}

  lemma ConnectionFailed(s: State, status: Byte, handle: nat, link: Byte, interval: nat, mem: bool)
    requires Sane(s) && status != 0
    ensures var r := Apply(s, Connected(status, handle, link), mem); SameLists(s, r) && !r.paging && SameFlags(s, r.(paging := s.paging))
    ensures var r := Apply(s, LeConnected(status, handle, interval), mem); SameLists(s, r) && !r.paging && SameFlags(s, r.(paging := s.paging))
  {}

  /** `r` is `s` with a fresh record: in place of an old one of the handle, or behind all others. */
  predicate Renewed(s: seq<Conn>, r: seq<Conn>, i: nat, handle: nat, kind: nat) {
    if i < |s| then
      |r| == |s| && Fresh(r[i], s[i].handle, kind) && forall k :: 0 <= k < |s| && k != i ==> r[k] == s[k]
    else
      |r| == |s| + 1 && Fresh(r[|s|], handle, kind) && forall k :: 0 <= k < |s| ==> r[k] == s[k]
  }

  /** A connection: link types 0 and 2 are synchronous, the rest L2CAP. Without memory only an old record is used. */
  lemma Connection(s: State, handle: nat, link: Byte, mem: bool)
    requires Sane(s)
    ensures var r := Apply(s, Connected(0, handle, link), mem); var i := FindConn(s.conns, handle);
      && !r.paging && SameFlags(s, r.(paging := s.paging)) && r.chans == s.chans
      && if i < |s.conns| || mem then Renewed(s.conns, r.conns, i, handle, if link == 0 || link == 2 then 1 else 0) else r.conns == s.conns
  {
    Joined(s.(paging := false), handle, if link == 0 || link == 2 then 1 else 0, mem);
  }

  lemma Joined(s: State, handle: nat, kind: nat, mem: bool)
    requires Sane(s)
    ensures var r := Connect(s, handle, kind, mem); var i := FindConn(s.conns, handle);
      && SameFlags(s, r) && r.chans == s.chans
      && if i < |s.conns| || mem then Renewed(s.conns, r.conns, i, handle, kind) else r.conns == s.conns
  {
    var i := FindConn(s.conns, handle);
    BegunFresh(if i < |s.conns| then s.conns[i].handle else handle, kind);
  }

  /** A low energy connection with an interval below 60 is active from the start. */
  lemma LeConnection(s: State, handle: nat, interval: nat, mem: bool)
    requires Sane(s) && handle < 0x1000
    ensures var r := Apply(s, LeConnected(0, handle, interval), mem); var i := FindConn(s.conns, handle);
      && !r.paging && SameFlags(s, r.(paging := s.paging)) && r.chans == s.chans
      && (i == |s.conns| && !mem ==> r.conns == s.conns)
      && (i < |s.conns| || mem ==>
            && i < |r.conns| && |r.conns| == (if i < |s.conns| then |s.conns| else |s.conns| + 1)
            && r.conns[i].handle == handle && r.conns[i].kind == 2
            && r.conns[i].bits == (if interval < 60 then {1, 4} else {1})
            && r.conns[i].refs == [0, 1, 0, 0, if interval < 60 then 1 else 0, 0, 0, 0]
            && forall k :: 0 <= k < |s.conns| && k != i ==> r.conns[k] == s.conns[k])
  {
    var t := s.(paging := false);
    var i := FindConn(t.conns, handle);
    if i < |t.conns| || mem {
      var u := Connect(t, handle, 2, mem);
      LeRecord(t, u, handle, i, mem);
      LeActive(u, handle, interval, i);
    }
  }

  /** The record of a low energy connection, active or not. */
  function LeConn(handle: nat, active: bool): Conn {
    Conn(handle, 2, if active then {1, 4} else {1}, [0, 1, 0, 0, if active then 1 else 0, 0, 0, 0])
  }

  lemma LeBegun(handle: nat)
    ensures Begun(handle, 2) == LeConn(handle, false)
  {
    assert NO_REFS[1 := 1] == [0, 1, 0, 0, 0, 0, 0, 0];
    assert {} + {1} == {1};
  }

  lemma LeActivated(handle: nat, interval: nat)
    ensures HidActive(LeConn(handle, false), interval) == LeConn(handle, interval < 60)
  {
    assert [0, 1, 0, 0, 0, 0, 0, 0][4 := 1] == [0, 1, 0, 0, 1, 0, 0, 0];
    assert {1} + {4} == {1, 4};
  }

  lemma LeRecord(t: State, u: State, handle: nat, i: nat, mem: bool)
    requires Sane(t) && handle < 0x1000 && i == FindConn(t.conns, handle) && (i < |t.conns| || mem) && u == Connect(t, handle, 2, mem)
    ensures SameFlags(t, u) && u.chans == t.chans && |u.conns| == (if i < |t.conns| then |t.conns| else |t.conns| + 1)
    ensures FindConn(u.conns, handle) == i < |u.conns| && u.conns[i] == LeConn(handle, false)
    ensures forall k :: 0 <= k < |t.conns| && k != i ==> u.conns[k] == t.conns[k]
  {
    LeBegun(handle);
    FoundAt(u.conns, handle, i);
  }

  lemma LeActive(u: State, handle: nat, interval: nat, i: nat)
    requires Sane(u) && FindConn(u.conns, handle) == i < |u.conns| && u.conns[i] == LeConn(handle, false)
    ensures HidActiveAt(u, handle, interval) == u.(conns := u.conns[i := LeConn(handle, interval < 60)])
  {
    LeActivated(handle, interval);
  }

  /** There is only one first record of a handle. */
  lemma FoundAt(conns: seq<Conn>, handle: nat, i: nat)
    requires i < |conns| && conns[i].handle == handle % 0x1000 && forall k :: 0 <= k < i ==> conns[k].handle != handle % 0x1000
    ensures FindConn(conns, handle) == i
  {
    assert conns[i].handle == handle % 0x1000;
  }

  // ----- Intervals -----

  /**
   * The interval of a HID connection: below 60 slots of 625 microseconds it is active, otherwise not,
   * and the counter follows. Nothing else changes; other connections are left alone.
   */
  lemma Intervals(s: State, handle: nat, interval: nat, mem: bool)
    requires Sane(s)
    ensures var r := Apply(s, Interval(handle, interval), mem); var i := FindConn(s.conns, handle);
      && SameFlags(s, r) && r.chans == s.chans && |r.conns| == |s.conns|
      && (forall k :: 0 <= k < |s.conns| && k != i ==> r.conns[k] == s.conns[k])
      && (i < |s.conns| && 1 !in s.conns[i].bits ==> r.conns[i] == s.conns[i])
      && (i < |s.conns| && 1 in s.conns[i].bits ==>
            var c, d := s.conns[i], r.conns[i];
            && d.handle == c.handle && d.kind == c.kind && |d.refs| == |c.refs|
            && (4 in d.bits <==> interval < 60)
            && (forall p :: p != 4 ==> (p in d.bits <==> p in c.bits))
            && (forall p :: 0 <= p < 8 && p != 4 ==> d.refs[p] == c.refs[p])
            && (4 in d.bits && 4 !in c.bits ==> d.refs[4] == (c.refs[4] + 1) % 256)
            && (4 !in d.bits && 4 in c.bits ==> d.refs[4] == (c.refs[4] + 255) % 256)
            && ((4 in d.bits <==> 4 in c.bits) ==> d.refs[4] == c.refs[4]))
  {}

  // ----- L2CAP -----

  /** The profile that runs over a protocol: none over service discovery and remote control. */
  function Runs(psm: nat): Option<nat> {
    if psm == 0x0001 || psm == 0x0017 then None
    else if psm == 0x0011 || psm == 0x0013 then Some(1)
    else if psm == 0x0019 then Some(2)
    else Some(3)
  }

  /** Some channel of the connection has the identifier on that side. */
  predicate Taken(chans: seq<Chan>, remote: bool, handle: nat, cid: nat) {
    exists k :: 0 <= k < |chans| && chans[k].handle == handle % 0x1000 && (if remote then chans[k].dcid else chans[k].scid) == cid
  }

  /** The connection has an AVDTP channel; flag bits above the handle are ignored. */
  predicate HasAvdtp(chans: seq<Chan>, handle: nat) {
    exists k :: 0 <= k < |chans| && chans[k].handle % 4096 == handle % 4096 && chans[k].psm == 0x0019
  }

  lemma AvdtpFound(chans: seq<Chan>, handle: nat)
    ensures AnyPsm(chans, handle, 0x0019) <==> HasAvdtp(chans, handle)
  {
    if AnyPsm(chans, handle, 0x0019) {
      var k :| 0 <= k < |chans| && HasPsm(chans[k], handle, 0x0019);
      assert chans[k].handle % 4096 == handle % 4096 && chans[k].psm == 0x0019;
    }
    if HasAvdtp(chans, handle) {
      var k :| 0 <= k < |chans| && chans[k].handle % 4096 == handle % 4096 && chans[k].psm == 0x0019;
      assert HasPsm(chans[k], handle, 0x0019);
    }
  }

  /** A channel is recorded once, under the identifier of the side that asks; a second AVDTP channel carries media. */
  lemma Asked(s: State, handle: nat, psm: nat, cid: nat, out: bool, mem: bool, junk: bool)
    requires Sane(s)
    ensures var r := ConReq(s, handle, psm, cid, out, mem, junk);
      && SameFlags(s, r) && r.conns == s.conns
      && if Runs(psm).None? || Taken(s.chans, !out, handle, cid) || !mem then r.chans == s.chans
         else
           && |r.chans| == |s.chans| + 1 && r.chans[..|s.chans|] == s.chans
           && var c := r.chans[|s.chans|];
             && c.handle == handle && c.psm == psm && c.profile == Runs(psm).value
             && (if out then c.scid == cid && c.dcid == 0 else c.dcid == cid && c.scid == 0)
             && (psm == 0x0019 ==> (c.media <==> HasAvdtp(s.chans, handle)))
  {
    AvdtpFound(s.chans, handle);
    var i := FindCid(s.chans, !out, handle, cid);
    if i < |s.chans| {
      assert HasCid(s.chans[i], !out, handle, cid);
    }
    if Taken(s.chans, !out, handle, cid) {
      var k :| 0 <= k < |s.chans| && s.chans[k].handle == handle % 0x1000 && (if !out then s.chans[k].dcid else s.chans[k].scid) == cid;
      assert HasCid(s.chans[k], !out, handle, cid);
    }
  }

  /** One use more: the counter rises by one, modulo 256, and the first use sets the bit. */
  ghost predicate OneMoreUse(c: Conn, d: Conn, p: nat) {
    && p < |c.refs| == |d.refs| && d.handle == c.handle && d.kind == c.kind
    && d.refs[p] == (c.refs[p] + 1) % 256 && (forall q :: 0 <= q < |c.refs| && q != p ==> d.refs[q] == c.refs[q])
    && (forall q :: q != p ==> (q in d.bits <==> q in c.bits)) && (p in d.bits <==> p in c.bits || c.refs[p] == 0)
  }

  /** One use less: nothing below zero; the last use clears the bit, and that of HID the interval bit too. */
  ghost predicate OneLessUse(c: Conn, d: Conn, p: nat) {
    && p < |c.refs| == |d.refs| && d.handle == c.handle && d.kind == c.kind
    && d.refs[p] == (if c.refs[p] == 0 then 0 else c.refs[p] - 1) && (forall q :: 0 <= q < |c.refs| && q != p ==> d.refs[q] == c.refs[q])
    && (forall q :: q != p && !(p == 1 && q == 4) ==> (q in d.bits <==> q in c.bits))
    && (p in d.bits <==> p in c.bits && c.refs[p] != 1)
    && (p == 1 ==> (4 in d.bits <==> 4 in c.bits && c.refs[1] != 1))
  }

  lemma Uses(c: Conn, p: nat)
    requires p < |c.refs|
    ensures OneMoreUse(c, UpdateProfile(c, p, true), p) && OneLessUse(c, UpdateProfile(c, p, false), p)
  {}

  /** Only the record at `i` changes. */
  predicate OnlyAt(s: seq<Conn>, r: seq<Conn>, i: nat) {
    |r| == |s| && forall k :: 0 <= k < |s| && k != i ==> r[k] == s[k]
  }

  /**
   * A response that succeeds, by the low octet of its result, completes the channel with the other
   * side's identifier and counts its profile on the connection; any other changes nothing.
   */
  lemma Answered(s: State, handle: nat, dcid: nat, scid: nat, out: bool, result: nat)
    requires Sane(s)
    ensures var r := ConRsp(s, handle, dcid, scid, out, result);
      var i, k := FindCid(s.chans, out, handle, scid), FindConn(s.conns, handle);
      && SameFlags(s, r)
      && if i == |s.chans| || result % 256 != 0 then r == s
         else
           && |r.chans| == |s.chans| && (forall j :: 0 <= j < |s.chans| && j != i ==> r.chans[j] == s.chans[j])
           && r.chans[i] == (if out then s.chans[i].(scid := dcid) else s.chans[i].(dcid := dcid))
           && OnlyAt(s.conns, r.conns, k) && (k < |s.conns| ==> OneMoreUse(s.conns[k], r.conns[k], s.chans[i].profile))
  {
    var i, k := FindCid(s.chans, out, handle, scid), FindConn(s.conns, handle);
    if i < |s.chans| && k < |s.conns| {
      Uses(s.conns[k], s.chans[i].profile);
    }
  }

  /** One use of a profile less; A2DP takes one use of the sink with it. */
  ghost predicate GivenUp(c: Conn, d: Conn, p: nat) {
    if p == 2 && 7 in c.bits then exists e :: OneLessUse(c, e, 2) && OneLessUse(e, d, 7) else OneLessUse(c, d, p)
  }

  lemma ReleaseUses(c: Conn, p: nat)
    requires p < |c.refs| == PROFILES
    ensures GivenUp(c, ReleaseProfile(c, p), p)
  {
    var d := UpdateProfile(c, p, false);
    Uses(c, p);
    Uses(d, SINK);
  }

  /** A release takes away the first channel with both identifiers, if its connection is known, and gives its profile up. */
  lemma ReleasedLaw(s: State, handle: nat, dcid: nat, scid: nat, out: bool, i: nat, k: nat)
    requires Sane(s) && i == FindBoth(s.chans, handle, if out then dcid else scid, if out then scid else dcid) && k == FindConn(s.conns, handle)
    ensures var r := DisconReq(s, handle, dcid, scid, out);
      && SameFlags(s, r)
      && if i == |s.chans| || k == |s.conns| then r == s
         else OneLess(s.chans, r.chans, i) && OnlyAt(s.conns, r.conns, k) && GivenUp(s.conns[k], r.conns[k], s.chans[i].profile)
  {
    if i < |s.chans| && k < |s.conns| {
      ReleaseUses(s.conns[k], s.chans[i].profile);
    }
  }

  /** An incoming packet on a media channel of an L2CAP connection makes it a sink, once, while A2DP is idle. */
  lemma MediaLaw(s: State, handle: nat, cid: nat, out: bool, busy: bool)
    requires Sane(s)
    ensures var r := MediaPacket(s, handle, cid, out, busy);
      var i, k := FindCid(s.chans, out, handle, cid), FindConn(s.conns, handle);
      && SameFlags(s, r) && r.chans == s.chans && OnlyAt(s.conns, r.conns, k)
      && (k < |s.conns| ==>
            if s.conns[k].kind == 0 && i < |s.chans| && s.chans[i].profile == 2 && s.chans[i].media && !busy && !out && 7 !in s.conns[k].bits
            then MadeSink(s.conns[k], r.conns[k])
            else r.conns[k] == s.conns[k])
  {
    var k := FindConn(s.conns, handle);
    if k < |s.conns| {
      SinkMade(s.conns[k]);
    }
  }

  /** The sink bit and one more use of it. */
  ghost predicate MadeSink(c: Conn, d: Conn) {
    && 7 < |c.refs| == |d.refs| && d.handle == c.handle && d.kind == c.kind && d.bits == c.bits + {7}
    && d.refs == c.refs[7 := (c.refs[7] + 1) % 256]
  }

  lemma SinkMade(c: Conn)
    requires |c.refs| == PROFILES
    ensures MadeSink(c, UpdateProfile(c.(bits := c.bits + {SINK}), SINK, true))
  {}

  // ----- Opening and closing a channel -----

  lemma FoundLast(chans: seq<Chan>, c: Chan, remote: bool, handle: nat, cid: nat)
    requires HasCid(c, remote, handle, cid) && FindCid(chans, remote, handle, cid) == |chans|
    ensures FindCid(chans + [c], remote, handle, cid) == |chans|
  {
    var all := chans + [c];
    assert all[|chans|] == c;
    assert forall k :: 0 <= k < |chans| ==> all[k] == chans[k];
  }

  lemma FoundBothLast(chans: seq<Chan>, c: Chan, remote: bool, handle: nat, cid: nat, dcid: nat, scid: nat)
    requires HasBoth(c, handle, dcid, scid) && cid == (if remote then dcid else scid) && FindCid(chans, remote, handle, cid) == |chans|
    ensures FindBoth(chans + [c], handle, dcid, scid) == |chans|
  {
    var all := chans + [c];
    assert all[|chans|] == c;
    assert forall k :: 0 <= k < |chans| ==> all[k] == chans[k] && !HasCid(chans[k], remote, handle, cid);
  }

  /** One use more and then one less, with nothing at its end, leaves a record as it was. */
  lemma UsedOnce(c: Conn, p: nat)
    requires |c.refs| == PROFILES && p < PROFILES && c.refs[p] < 255 && (p in c.bits <==> c.refs[p] != 0)
    requires HID_INTERVAL in c.bits ==> HID in c.bits
    requires p == A2DP ==> SINK !in c.bits
    ensures p != HID_INTERVAL ==> ReleaseProfile(UpdateProfile(c, p, true), p) == c
  {
    var d := UpdateProfile(c, p, true);
    assert d.refs[p := c.refs[p]] == c.refs;
  }

  /**
   * A channel asked for, granted and released again leaves connections and channels as they were, if
   * it was not there before, its connection is known, its counter is not at its end, bits and counters
   * agree, and no sink hangs on it.
   */
  lemma OpenAndClose(s: State, handle: nat, psm: nat, scid: nat, dcid: nat, out: bool, junk: bool, k: nat, p: nat)
    requires Sane(s) && handle < 0x1000 && k == FindConn(s.conns, handle) < |s.conns| && Runs(psm) == Some(p)
    requires FindCid(s.chans, !out, handle, scid) == |s.chans|
    requires var c := s.conns[k];
      && c.refs[p] < 255 && (p in c.bits <==> c.refs[p] != 0) && (HID_INTERVAL in c.bits ==> HID in c.bits) && (p == A2DP ==> SINK !in c.bits)
    ensures var asked := ConReq(s, handle, psm, scid, out, true, junk);
      var granted := ConRsp(asked, handle, dcid, scid, !out, 0);
      DisconReq(granted, handle, dcid, scid, out) == s
  {
    var asked := ConReq(s, handle, psm, scid, out, true, junk);
    var n := |s.chans|;
    var c := asked.chans[n];
    assert asked.chans == s.chans + [c];
    FoundLast(s.chans, c, !out, handle, scid);
    Granted(s, asked, handle, scid, dcid, out, k, p, c);
  }

  lemma Granted(s: State, asked: State, handle: nat, scid: nat, dcid: nat, out: bool, k: nat, p: nat, c: Chan)
    requires Sane(s) && Sane(asked) && handle < 0x1000 && k == FindConn(s.conns, handle) < |s.conns| && p < PROFILES && p != HID_INTERVAL
    requires asked == s.(chans := s.chans + [c]) && c.handle == handle && c.profile == p && HasCid(c, !out, handle, scid)
    requires FindCid(s.chans, !out, handle, scid) == |s.chans| && FindCid(asked.chans, !out, handle, scid) == |s.chans|
    requires var c := s.conns[k];
      && c.refs[p] < 255 && (p in c.bits <==> c.refs[p] != 0) && (HID_INTERVAL in c.bits ==> HID in c.bits) && (p == A2DP ==> SINK !in c.bits)
    ensures DisconReq(ConRsp(asked, handle, dcid, scid, !out, 0), handle, dcid, scid, out) == s
  {
    var n := |s.chans|;
    var d := if out then c.(dcid := dcid) else c.(scid := dcid);
    var x := UpdateProfile(s.conns[k], p, true);
    var granted := s.(chans := s.chans + [d], conns := s.conns[k := x]);
    GrantedIs(s, asked, handle, scid, dcid, out, k, p, c, d, granted);
    FoundBothLast(s.chans, d, !out, handle, scid, if out then dcid else scid, if out then scid else dcid);
    SameFound(s.conns, handle, k, x);
    UsedOnce(s.conns[k], p);
    GaveBack(s, granted, handle, scid, dcid, out, k, p, d, x);
  }

  /** Replacing the record found by one of the same handle changes nothing for the search. */
  lemma SameFound(conns: seq<Conn>, handle: nat, k: nat, x: Conn)
    requires k == FindConn(conns, handle) < |conns| && x.handle == conns[k].handle
    ensures FindConn(conns[k := x], handle) == k
  {
    FoundAt(conns[k := x], handle, k);
  }

  lemma GrantedIs(s: State, asked: State, handle: nat, scid: nat, dcid: nat, out: bool, k: nat, p: nat, c: Chan, d: Chan, granted: State)
    requires Sane(s) && Sane(asked) && k == FindConn(s.conns, handle) < |s.conns| && p < PROFILES && c.profile == p
    requires asked == s.(chans := s.chans + [c]) && FindCid(asked.chans, !out, handle, scid) == |s.chans|
    requires d == (if out then c.(dcid := dcid) else c.(scid := dcid))
    requires granted == s.(chans := s.chans + [d], conns := s.conns[k := UpdateProfile(s.conns[k], p, true)])
    ensures ConRsp(asked, handle, dcid, scid, !out, 0) == granted
  {
    assert asked.chans[|s.chans| := d] == s.chans + [d];
  }

  lemma GaveBack(s: State, granted: State, handle: nat, scid: nat, dcid: nat, out: bool, k: nat, p: nat, d: Chan, x: Conn)
    requires Sane(s) && Sane(granted) && k < |s.conns| && p < PROFILES && d.profile == p && |x.refs| == PROFILES
    requires granted == s.(chans := s.chans + [d], conns := s.conns[k := x]) && ReleaseProfile(x, p) == s.conns[k]
    requires FindConn(granted.conns, handle) == k
    requires FindBoth(granted.chans, handle, if out then dcid else scid, if out then scid else dcid) == |s.chans|
    ensures DisconReq(granted, handle, dcid, scid, out) == s
  {
    var n := |s.chans|;
    assert granted.chans[n] == d && granted.chans[..n] == s.chans && granted.chans[n + 1..] == [];
    assert s.conns[k := x][k := s.conns[k]] == s.conns;
    assert s.chans + [] == s.chans;
  }
}
