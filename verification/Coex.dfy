/**
 * The coexistence module's picture of the controller: which connections there are, which profiles
 * run over them, and what every event and L2CAP signal does to it.
 */
module Coex {
  import opened Bytes

  const SCO: nat := 0
  const HID: nat := 1
  const A2DP: nat := 2
  const PAN: nat := 3
  const HID_INTERVAL: nat := 4
  const SINK: nat := 7
  const PROFILES: nat := 8

  /** A connection: kind 0 is L2CAP, 1 is SCO, 2 is LE. `refs` are 8-bit counters. */
  datatype Conn = Conn(handle: nat, kind: nat, bits: set<nat>, refs: seq<nat>)

  /** An L2CAP channel. `media` is the A2DP media flag, which is set up only for AVDTP. */
  datatype Chan = Chan(handle: nat, psm: nat, dcid: nat, scid: nat, profile: nat, media: bool)

  datatype State = State(inquiring: bool, pairing: bool, paging: bool, hciRev: nat, lmpSub: nat, newReport: bool,
                         conns: seq<Conn>, chans: seq<Chan>)

  const Start: State := State(false, false, false, 0, 0, false, [], [])

  // ----- One connection -----

  const NO_REFS: seq<nat> := [0, 0, 0, 0, 0, 0, 0, 0]

  /** One more or one less use of a profile; the bit follows the first and the last. */
  function UpdateProfile(c: Conn, p: nat, add: bool): Conn
    requires p < |c.refs|
  {
    if add then
      c.(bits := if c.refs[p] == 0 then c.bits + {p} else c.bits, refs := c.refs[p := (c.refs[p] + 1) % 256])
    else if c.refs[p] == 0 then c
    else
      var r := c.refs[p] - 1;
      c.(refs := c.refs[p := r],
         bits := if r != 0 then c.bits else if p == HID then c.bits - {HID, HID_INTERVAL} else c.bits - {p})
  }

  /** One use of a profile less; A2DP takes the sink with it. */
  function ReleaseProfile(c: Conn, p: nat): (r: Conn)
    requires p < |c.refs| == PROFILES
    ensures |r.refs| == PROFILES
  {
    var d := UpdateProfile(c, p, false);
    if p == A2DP && SINK in d.bits then UpdateProfile(d, SINK, false) else d
  }

  /** One use less while the connection is taken down: the interval bit is left alone. */
  function DropProfile(c: Conn, p: nat): (r: Conn)
    requires p < |c.refs| == PROFILES
    ensures |r.refs| == PROFILES
  {
    if c.refs[p] == 0 then c
    else c.(refs := c.refs[p := c.refs[p] - 1], bits := if c.refs[p] == 1 then c.bits - {p} else c.bits)
  }

  /** A short interval marks a HID connection as active. */
  function HidActive(c: Conn, interval: nat): Conn
    requires HID_INTERVAL < |c.refs|
  {
    if HID !in c.bits then c
    else if interval < 60 then
      if HID_INTERVAL in c.bits then c
      else c.(bits := c.bits + {HID_INTERVAL}, refs := c.refs[HID_INTERVAL := (c.refs[HID_INTERVAL] + 1) % 256])
    else if HID_INTERVAL !in c.bits then c
    else c.(bits := c.bits - {HID_INTERVAL}, refs := c.refs[HID_INTERVAL := (c.refs[HID_INTERVAL] + 255) % 256])
  }

  // ----- Looking up -----

  /** The first connection with this handle; flag bits above the handle are ignored. */
  function FindConn(conns: seq<Conn>, handle: nat): (r: nat)
    ensures r <= |conns|
    ensures r < |conns| ==> conns[r].handle == handle % 0x1000
    ensures forall i :: 0 <= i < r ==> conns[i].handle != handle % 0x1000
  {
    if conns == [] then 0
    else if conns[0].handle == handle % 0x1000 then 0
    else 1 + FindConn(conns[1..], handle)
  }

  predicate HasScid(c: Chan, handle: nat, scid: nat) {
    c.handle == handle % 0x1000 && c.scid == scid
  }

  predicate HasDcid(c: Chan, handle: nat, dcid: nat) {
    c.handle == handle % 0x1000 && c.dcid == dcid
  }

  /** By the remote or the local identifier. */
  predicate HasCid(c: Chan, remote: bool, handle: nat, cid: nat) {
    if remote then HasDcid(c, handle, cid) else HasScid(c, handle, cid)
  }

  predicate HasBoth(c: Chan, handle: nat, dcid: nat, scid: nat) {
    HasDcid(c, handle, dcid) && HasScid(c, handle, scid)
  }

  predicate HasPsm(c: Chan, handle: nat, psm: nat) {
    c.handle % 0x1000 == handle % 0x1000 && c.psm == psm
  }

  /** The first channel with an identifier. */
  function FindCid(chans: seq<Chan>, remote: bool, handle: nat, cid: nat): (r: nat)
    ensures r <= |chans|
    ensures r < |chans| ==> HasCid(chans[r], remote, handle, cid)
    ensures forall i :: 0 <= i < r ==> !HasCid(chans[i], remote, handle, cid)
  {
    if chans == [] then 0
    else if HasCid(chans[0], remote, handle, cid) then 0
    else 1 + FindCid(chans[1..], remote, handle, cid)
  }

  /** The first channel with both identifiers. */
  function FindBoth(chans: seq<Chan>, handle: nat, dcid: nat, scid: nat): (r: nat)
    ensures r <= |chans|
    ensures r < |chans| ==> HasBoth(chans[r], handle, dcid, scid)
    ensures forall i :: 0 <= i < r ==> !HasBoth(chans[i], handle, dcid, scid)
  {
    if chans == [] then 0
    else if HasBoth(chans[0], handle, dcid, scid) then 0
    else 1 + FindBoth(chans[1..], handle, dcid, scid)
  }

  predicate AnyPsm(chans: seq<Chan>, handle: nat, psm: nat) {
    exists i :: 0 <= i < |chans| && HasPsm(chans[i], handle, psm)
  }

  predicate Sane(s: State) {
    && (forall i :: 0 <= i < |s.conns| ==> |s.conns[i].refs| == PROFILES)
    && (forall i :: 0 <= i < |s.chans| ==> s.chans[i].profile < PROFILES)
  }

  // ----- Events -----

  /** What the handlers read out of an event. */
  datatype Msg =
    | InquiryEnd
    | PairStart
    | PairEnd
    | Interval(handle: nat, interval: nat)
    | Version(rev: nat, sub: nat)
    | NewReport
    | PageStart
    | Connected(status: Byte, handle: nat, link: Byte)
    | LeConnected(status: Byte, handle: nat, interval: nat)
    | Disconnected(status: Byte, handle: nat)
    | Nothing

  function HidActiveAt(s: State, handle: nat, interval: nat): (r: State)
    requires Sane(s)
    ensures Sane(r)
  {
    var i := FindConn(s.conns, handle);
    if i == |s.conns| then s else s.(conns := s.conns[i := HidActive(s.conns[i], interval)])
  }

  /** A connection as it begins: nothing runs over it but what its kind implies. */
  function Begun(handle: nat, kind: nat): Conn {
    var c := Conn(handle, kind, {}, NO_REFS);
    if kind == 1 then UpdateProfile(c, SCO, true) else if kind == 2 then UpdateProfile(c, HID, true) else c
  }

  /** A new connection, or an old one of the same handle begun again. `mem` is whether memory is granted. */
  function Connect(s: State, handle: nat, kind: nat, mem: bool): (r: State)
    requires Sane(s)
    ensures Sane(r)
  {
    var i := FindConn(s.conns, handle);
    if i < |s.conns| then s.(conns := s.conns[i := Begun(s.conns[i].handle, kind)])
    else if mem then s.(conns := s.conns + [Begun(handle, kind)])
    else s
  }

  function WithoutChans(chans: seq<Chan>, handle: nat): (r: seq<Chan>)
    ensures forall i :: 0 <= i < |r| ==> r[i] in chans && r[i].handle != handle
  {
    if chans == [] then []
    else if chans[0].handle == handle then WithoutChans(chans[1..], handle)
    else [chans[0]] + WithoutChans(chans[1..], handle)
  }

  /** What one channel of a connection that goes does to its record. */
  function DropChan(c: Conn, x: Chan): (r: Conn)
    requires |c.refs| == PROFILES && x.profile < PROFILES
    ensures |r.refs| == PROFILES
  {
    var d := DropProfile(c, x.profile);
    if x.media && SINK in d.bits then DropProfile(d, SINK) else d
  }

  /** The record of an L2CAP connection once all its channels are dropped. */
  function DropChans(c: Conn, chans: seq<Chan>, handle: nat): (r: Conn)
    requires |c.refs| == PROFILES && forall i :: 0 <= i < |chans| ==> chans[i].profile < PROFILES
    ensures |r.refs| == PROFILES
    decreases |chans|
  {
    if chans == [] then c
    else DropChans(if chans[0].handle == handle then DropChan(c, chans[0]) else c, chans[1..], handle)
  }

  /** The connection's record is counted down, and the channels of an L2CAP one are removed. */
  function TakeDown(s: State, i: nat, handle: nat): (r: State)
    requires Sane(s) && i < |s.conns|
    ensures Sane(r) && |r.conns| == |s.conns|
  {
    var c := s.conns[i];
    if c.kind == 0 then s.(conns := s.conns[i := DropChans(c, s.chans, handle)], chans := WithoutChans(s.chans, handle))
    else if c.kind == 1 then s.(conns := s.conns[i := UpdateProfile(c, SCO, false)])
    else if c.kind == 2 then s.(conns := s.conns[i := UpdateProfile(c, HID, false)])
    else s
  }

  function WithoutConn(s: State, i: nat): (r: State)
    requires Sane(s) && i < |s.conns|
    ensures Sane(r)
  {
    s.(conns := s.conns[..i] + s.conns[i + 1..])
  }

  /** A connection is taken down and deleted. */
  function Disconnect(s: State, handle: nat): (r: State)
    requires Sane(s)
    ensures Sane(r)
  {
    var i := FindConn(s.conns, handle);
    if i == |s.conns| then s else WithoutConn(TakeDown(s, i, handle), i)
  }

  /** The effect of an event. */
  function Apply(s: State, m: Msg, mem: bool): (r: State)
    requires Sane(s)
    ensures Sane(r)
  {
    match m
    case InquiryEnd => s.(inquiring := false)
    case PairStart => s.(pairing := true)
    case PairEnd => s.(pairing := false)
    case Interval(handle, interval) => HidActiveAt(s, handle, interval)
    case Version(rev, sub) => s.(hciRev := rev, lmpSub := sub)
    case NewReport => s.(newReport := true)
    case PageStart => s.(paging := true)
    case Connected(status, handle, link) =>
      var t := s.(paging := false);
      if status != 0 then t else Connect(t, handle, if link == 0 || link == 2 then 1 else 0, mem)
    case LeConnected(status, handle, interval) =>
      var t := s.(paging := false);
      if status != 0 then t
      else if FindConn(t.conns, handle) == |t.conns| && !mem then t
      else HidActiveAt(Connect(t, handle, 2, mem), handle, interval)
    case Disconnected(status, handle) =>
      var t := s.(pairing := false);
      if status != 0 then t else Disconnect(t, handle)
    case Nothing => s
  }

  // ----- L2CAP signals and media packets -----

  const PSM_SDP: nat := 0x0001
  const PSM_HID: nat := 0x0011
  const PSM_HID_INT: nat := 0x0013
  const PSM_AVCTP: nat := 0x0017
  const PSM_AVDTP: nat := 0x0019

  function PsmProfile(psm: nat): (r: Option<nat>)
    ensures r.Some? ==> r.value == HID || r.value == A2DP || r.value == PAN
  {
    if psm == PSM_AVCTP || psm == PSM_SDP then None
    else if psm == PSM_HID || psm == PSM_HID_INT then Some(HID)
    else if psm == PSM_AVDTP then Some(A2DP)
    else Some(PAN)
  }

  /** A connection request, outgoing or incoming. `junk` is what the flag holds where it is not set up. */
  function ConReq(s: State, handle: nat, psm: nat, scid: nat, out: bool, mem: bool, junk: bool): (r: State)
    requires Sane(s)
    ensures Sane(r)
  {
    var profile := PsmProfile(psm);
    if profile.None? then s else
      var i := FindCid(s.chans, !out, handle, scid);
      if i < |s.chans| || !mem then s else
        var second := AnyPsm(s.chans, handle, psm);
        s.(chans := s.chans + [Chan(handle, psm, if out then 0 else scid, if out then scid else 0, profile.value,
                                    if psm == PSM_AVDTP then second else junk)])
  }

  function UpdateAt(s: State, handle: nat, profile: nat, add: bool): (r: State)
    requires Sane(s) && profile < PROFILES
    ensures Sane(r) && r.chans == s.chans
  {
    var i := FindConn(s.conns, handle);
    if i == |s.conns| then s else s.(conns := s.conns[i := UpdateProfile(s.conns[i], profile, add)])
  }

  /** A connection response; only the low octet of the result is looked at. */
  function ConRsp(s: State, handle: nat, dcid: nat, scid: nat, out: bool, result: nat): (r: State)
    requires Sane(s)
    ensures Sane(r)
  {
    var i := FindCid(s.chans, out, handle, scid);
    if i == |s.chans| || result % 256 != 0 then s else
      var c := s.chans[i];
      var t := s.(chans := s.chans[i := if out then c.(scid := dcid) else c.(dcid := dcid)]);
      UpdateAt(t, handle, c.profile, true)
  }

  /** A disconnection request. */
  function DisconReq(s: State, handle: nat, dcid: nat, scid: nat, out: bool): (r: State)
    requires Sane(s)
    ensures Sane(r)
  {
    var i := FindBoth(s.chans, handle, if out then dcid else scid, if out then scid else dcid);
    var k := FindConn(s.conns, handle);
    if i == |s.chans| || k == |s.conns| then s else
      s.(conns := s.conns[k := ReleaseProfile(s.conns[k], s.chans[i].profile)], chans := s.chans[..i] + s.chans[i + 1..])
  }

  /** A media packet while A2DP is idle: an incoming one makes the connection a sink. */
  function MediaPacket(s: State, handle: nat, cid: nat, out: bool, busy: bool): (r: State)
    requires Sane(s)
    ensures Sane(r)
  {
    var k := FindConn(s.conns, handle);
    if k == |s.conns| || s.conns[k].kind != 0 then s else
      var i := FindCid(s.chans, out, handle, cid);
      if i == |s.chans| then s
      else if s.chans[i].profile != A2DP || !s.chans[i].media || busy || out || SINK in s.conns[k].bits then s
      else s.(conns := s.conns[k := UpdateProfile(s.conns[k].(bits := s.conns[k].bits + {SINK}), SINK, true)])
  }
}
