/** The coexistence handlers in place: one object, its lists, and the flags they update. */
module CoexDevice {
  import opened Bytes
  import opened Coex
  import opened CoexEvents
  import CoexRun

  class Btcoex {
    var inquiring: bool
    var pairing: bool
    var paging: bool
    var hciRev: nat
    var lmpSub: nat
    var newReport: bool
    var conns: seq<Conn>
    var chans: seq<Chan>

    function View(): State
      reads this
    {
      State(inquiring, pairing, paging, hciRev, lmpSub, newReport, conns, chans)
    }

    constructor ()
      ensures View() == Start && Sane(View())
    {
      inquiring, pairing, paging, hciRev, lmpSub, newReport := false, false, false, 0, 0, false;
      conns, chans := [], [];
    }

    /** The walk over the connections. */
    method FindConnection(handle: nat) returns (i: nat)
      ensures i == FindConn(conns, handle)
    {
      i := 0;
      while i < |conns| && conns[i].handle != handle % 0x1000
        invariant i <= |conns| && forall k :: 0 <= k < i ==> conns[k].handle != handle % 0x1000
      {
        i := i + 1;
      }
    }

    /** One more or one less use of a profile. */
    method UpdateProfileConnection(i: nat, p: nat, add: bool)
      requires Sane(View()) && i < |conns| && p < PROFILES
      modifies this`conns
      ensures Sane(View()) && conns == old(conns)[i := UpdateProfile(old(conns)[i], p, add)]
    {
      var bits, refs := conns[i].bits, conns[i].refs;
      if add {
        if refs[p] == 0 {
          bits := bits + {p};
        }
        refs := refs[p := (refs[p] + 1) % 256];
      } else {
        if refs[p] == 0 {
          return;
        }
        refs := refs[p := refs[p] - 1];
        if refs[p] == 0 {
          bits := bits - {p};
          if p == HID && HID_INTERVAL in bits {
            bits := bits - {HID_INTERVAL};
          }
          assert p == HID ==> bits == conns[i].bits - {HID, HID_INTERVAL};
        }
      }
      conns := conns[i := conns[i].(bits := bits, refs := refs)];
    }

    method UpdateHidActiveState(handle: nat, interval: nat)
      requires Sane(View())
      modifies this`conns
      ensures Sane(View()) && View() == HidActiveAt(old(View()), handle, interval)
    {
      var i := FindConnection(handle);
      if i == |conns| || HID !in conns[i].bits {
        return;
      }
      var bits, refs := conns[i].bits, conns[i].refs;
      if interval < 60 {
        if HID_INTERVAL !in bits {
          bits := bits + {HID_INTERVAL};
          refs := refs[HID_INTERVAL := (refs[HID_INTERVAL] + 1) % 256];
        }
      } else if HID_INTERVAL in bits {
        bits := bits - {HID_INTERVAL};
        refs := refs[HID_INTERVAL := (refs[HID_INTERVAL] + 255) % 256];
      }
      conns := conns[i := conns[i].(bits := bits, refs := refs)];
    }

    /** A connection comes up; an old record of the same handle is used again. */
    method ConnectionUp(handle: nat, kind: nat, mem: bool) returns (ok: bool)
      requires Sane(View()) && kind <= 2
      modifies this`conns
      ensures Sane(View()) && View() == Connect(old(View()), handle, kind, mem)
      ensures ok <==> mem || FindConn(old(conns), handle) < |old(conns)|
    {
      var i := FindConnection(handle);
      ok := i < |conns| || mem;
      if i < |conns| {
        conns := conns[i := Conn(conns[i].handle, kind, {}, NO_REFS)];
      } else if mem {
        conns := conns + [Conn(handle, kind, {}, NO_REFS)];
      } else {
        return;
      }
      if kind == 1 {
        UpdateProfileConnection(i, SCO, true);
      } else if kind == 2 {
        UpdateProfileConnection(i, HID, true);
      }
    }

    /** One use of a profile less, while its connection goes. */
    method DisconnProfile(i: nat, p: nat)
      requires Sane(View()) && i < |conns| && p < PROFILES
      modifies this`conns
      ensures Sane(View()) && conns == old(conns)[i := DropProfile(old(conns)[i], p)]
    {
      var bits, refs := conns[i].bits, conns[i].refs;
      if refs[p] == 0 {
        return;
      }
      refs := refs[p := refs[p] - 1];
      if refs[p] == 0 {
        bits := bits - {p};
      }
      conns := conns[i := conns[i].(bits := bits, refs := refs)];
    }

    /** What one channel of the connection counts down. */
    method DisconnChannel(i: nat, x: Chan)
      requires Sane(View()) && i < |conns| && x.profile < PROFILES
      modifies this`conns
      ensures Sane(View()) && conns == old(conns)[i := DropChan(old(conns)[i], x)]
    {
      DisconnProfile(i, x.profile);
      if x.media && SINK in conns[i].bits {
        DisconnProfile(i, SINK);
      }
    }

    /** Counts down what the channels of a handle stand for, and removes them. */
    method DisconnAcl(i: nat, handle: nat)
      requires Sane(View()) && i < |conns|
      modifies this`conns, this`chans
      ensures Sane(View())
      ensures conns == old(conns)[i := DropChans(old(conns)[i], old(chans), handle)]
      ensures chans == WithoutChans(old(chans), handle)
    {
      var rest, left := chans, [];
      assert [] + WithoutChans(rest, handle) == WithoutChans(rest, handle);
      while rest != []
        invariant Sane(View()) && |conns| == |old(conns)| && conns == old(conns)[i := conns[i]] && chans == old(chans)
        invariant forall k :: 0 <= k < |rest| ==> rest[k].profile < PROFILES
        invariant DropChans(conns[i], rest, handle) == DropChans(old(conns)[i], old(chans), handle)
        invariant left + WithoutChans(rest, handle) == WithoutChans(old(chans), handle)
        decreases |rest|
      {
        var c, were := rest[0], left;
        if c.handle == handle {
          DisconnChannel(i, c);
        } else {
          left := left + [c];
          assert were + ([c] + WithoutChans(rest[1..], handle)) == left + WithoutChans(rest[1..], handle);
        }
        rest := rest[1..];
      }
      assert left + [] == left;
      chans := left;
    }

    method DisconnectComplete(status: Byte, handle: nat)
      requires Sane(View())
      modifies this
      ensures Sane(View()) && View() == Apply(old(View()), Disconnected(status, handle), true)
    {
      pairing := false;
      if status != 0 {
        return;
      }
      var i := FindConnection(handle);
      if i == |conns| {
        return;
      }
      ConnectionDown(i, handle);
      conns := conns[..i] + conns[i + 1..];
    }

    /** Counts down by the kind of the connection. */
    method ConnectionDown(i: nat, handle: nat)
      requires Sane(View()) && i < |conns|
      modifies this`conns, this`chans
      ensures Sane(View()) && View() == TakeDown(old(View()), i, handle)
    {
      if conns[i].kind == 0 {
        DisconnAcl(i, handle);
      } else if conns[i].kind == 1 {
        UpdateProfileConnection(i, SCO, false);
      } else if conns[i].kind == 2 {
        UpdateProfileConnection(i, HID, false);
      }
    }

    method ConnectionComplete(status: Byte, handle: nat, link: Byte, mem: bool)
      requires Sane(View())
      modifies this
      ensures Sane(View()) && View() == Apply(old(View()), Connected(status, handle, link), mem)
    {
      paging := false;
      if status == 0 {
        var ok := ConnectionUp(handle, if link == 0 || link == 2 then 1 else 0, mem);
      }
    }

    method LeConnectionComplete(status: Byte, handle: nat, interval: nat, mem: bool)
      requires Sane(View())
      modifies this
      ensures Sane(View()) && View() == Apply(old(View()), LeConnected(status, handle, interval), mem)
    {
      paging := false;
      if status == 0 {
        var ok := ConnectionUp(handle, 2, mem);
        if ok {
          UpdateHidActiveState(handle, interval);
        }
      }
    }

    method CommandComplete(d: seq<Byte>)
      requires Sane(View())
      modifies this
      ensures Sane(View()) && View() == Apply(old(View()), DecodeComplete(d), true)
    {
      var op := Word(d, 3);
      if op == OP_PERIODIC_INQ {
        if At(d, 5) != 0 {
          inquiring := false;
        }
      }
      if op == OP_READ_LOCAL_VERSION {
        if At(d, 5) == 0 {
          hciRev := Word(d, 7);
          lmpSub := Word(d, 12);
        }
      }
      if op == OP_SET_PROFILE_REPORT {
        if At(d, 5) != 1 {
          newReport := true;
        }
      }
    }

    method CommandStatus(d: seq<Byte>)
      requires Sane(View())
      modifies this
      ensures Sane(View()) && View() == Apply(old(View()), DecodeStatus(d), true)
    {
      var status, op := At(d, 2), Word(d, 4);
      if op == OP_INQUIRY && status != 0 {
        inquiring := false;
      }
      if op == OP_CREATE_CONN && status == 0 {
        paging := true;
      }
    }

    method LeMeta(d: seq<Byte>, mem: bool)
      requires Sane(View())
      modifies this
      ensures Sane(View()) && View() == Apply(old(View()), DecodeLe(d), mem)
    {
      var sub := At(d, 2);
      if sub == LE_CONN_COMPLETE {
        LeConnectionComplete(At(d, 3), Word(d, 4), Word(d, 14), mem);
      } else if sub == LE_ENHANCED_CONN {
        LeConnectionComplete(At(d, 3), Word(d, 4), Word(d, 26), mem);
      } else if sub == LE_CONN_UPDATE {
        UpdateHidActiveState(Word(d, 4), Word(d, 6));
      }
    }

    /** The dispatch on the event code. */
    method ParseEventData(d: seq<Byte>, mem: bool)
      requires Sane(View())
      modifies this
      ensures Sane(View()) && View() == Apply(old(View()), Decode(d), mem)
    {
      var code := At(d, 0);
      if code == EV_INQUIRY_COMPLETE {
        inquiring := false;
      } else if code == EV_PIN_CODE_REQ || code == EV_IO_CAPA_REQUEST {
        pairing := true;
      } else if code == EV_AUTH_COMPLETE || code == EV_LINK_KEY_NOTIFY {
        pairing := false;
      } else if code == EV_MODE_CHANGE {
        UpdateHidActiveState(Word(d, 3), Word(d, 6));
      } else if code == EV_CMD_COMPLETE {
        CommandComplete(d);
      } else if code == EV_CMD_STATUS {
        CommandStatus(d);
      } else if code == EV_CONN_COMPLETE || code == EV_SYNC_CONN_COMPLETE {
        ConnectionComplete(At(d, 2), Word(d, 3), At(d, 11), mem);
      } else if code == EV_DISCONN_COMPLETE {
        DisconnectComplete(At(d, 2), Word(d, 3));
      } else if code == EV_LE_META {
        LeMeta(d, mem);
      }
    }

    // ----- L2CAP signals and media packets -----

    /** The walk over the channels, by one of their two identifiers. */
    method FindChannel(remote: bool, handle: nat, cid: nat) returns (i: nat)
      ensures i == FindCid(chans, remote, handle, cid)
    {
      i := 0;
      while i < |chans| && !HasCid(chans[i], remote, handle, cid)
        invariant i <= |chans|
        invariant forall k :: 0 <= k < i ==> !HasCid(chans[k], remote, handle, cid)
      {
        i := i + 1;
      }
    }

    method FindByPsm(handle: nat, psm: nat) returns (found: bool)
      ensures found <==> AnyPsm(chans, handle, psm)
    {
      var i := 0;
      while i < |chans|
        invariant i <= |chans| && forall k :: 0 <= k < i ==> !HasPsm(chans[k], handle, psm)
      {
        if HasPsm(chans[i], handle, psm) {
          return true;
        }
        i := i + 1;
      }
      found := false;
    }

    method L2capConReq(handle: nat, psm: nat, scid: nat, out: bool, mem: bool, junk: bool)
      requires Sane(View())
      modifies this`chans
      ensures Sane(View()) && View() == ConReq(old(View()), handle, psm, scid, out, mem, junk)
    {
      var profile := PsmProfile(psm);
      if profile.None? {
        return;
      }
      var i := FindChannel(!out, handle, scid);
      if i < |chans| || !mem {
        return;
      }
      var media := junk;
      if psm == PSM_AVDTP {
        media := FindByPsm(handle, psm);
      }
      chans := chans + [Chan(handle, psm, if out then 0 else scid, if out then scid else 0, profile.value, media)];
    }

    method L2capConRsp(handle: nat, dcid: nat, scid: nat, out: bool, result: nat)
      requires Sane(View())
      modifies this`chans, this`conns
      ensures Sane(View()) && View() == ConRsp(old(View()), handle, dcid, scid, out, result)
    {
      var i := FindChannel(out, handle, scid);
      if i == |chans| || result % 256 != 0 {
        return;
      }
      var c := chans[i];
      chans := chans[i := if out then c.(scid := dcid) else c.(dcid := dcid)];
      var k := FindConnection(handle);
      if k < |conns| {
        UpdateProfileConnection(k, c.profile, true);
      }
    }

    /** The walk over the channels by both identifiers. */
    method FindByBoth(handle: nat, dcid: nat, scid: nat) returns (i: nat)
      ensures i == FindBoth(chans, handle, dcid, scid)
    {
      i := 0;
      while i < |chans| && !HasBoth(chans[i], handle, dcid, scid)
        invariant i <= |chans|
        invariant forall k :: 0 <= k < i ==> !HasBoth(chans[k], handle, dcid, scid)
      {
        i := i + 1;
      }
    }

    method ReleaseAt(k: nat, p: nat)
      requires Sane(View()) && k < |conns| && p < PROFILES
      modifies this`conns
      ensures Sane(View()) && conns == old(conns)[k := ReleaseProfile(old(conns)[k], p)]
    {
      UpdateProfileConnection(k, p, false);
      if p == A2DP && SINK in conns[k].bits {
        UpdateProfileConnection(k, SINK, false);
      }
    }

    method L2capDisconReq(handle: nat, dcid: nat, scid: nat, out: bool)
      requires Sane(View())
      modifies this`chans, this`conns
      ensures Sane(View()) && View() == DisconReq(old(View()), handle, dcid, scid, out)
    {
      var i := FindByBoth(handle, if out then dcid else scid, if out then scid else dcid);
      if i == |chans| {
        return;
      }
      var k := FindConnection(handle);
      if k == |conns| {
        return;
      }
      ReleaseAt(k, chans[i].profile);
      chans := chans[..i] + chans[i + 1..];
    }

    /** A data packet; `busy` is whether A2DP was marked busy already. */
    method PacketsCount(handle: nat, cid: nat, out: bool, busy: bool)
      requires Sane(View())
      modifies this`conns
      ensures Sane(View()) && View() == MediaPacket(old(View()), handle, cid, out, busy)
    {
      var k := FindConnection(handle);
      if k == |conns| || conns[k].kind != 0 {
        return;
      }
      var i := FindChannel(out, handle, cid);
      if i == |chans| {
        return;
      }
      if chans[i].profile == A2DP && chans[i].media && !busy && !out && SINK !in conns[k].bits {
        conns := conns[k := conns[k].(bits := conns[k].bits + {SINK})];
        UpdateProfileConnection(k, SINK, true);
      }
    }

    /** What an L2CAP packet does. */
    method Packet(op: CoexRun.Op)
      requires Sane(View()) && !op.Event?
      modifies this
      ensures Sane(View()) && View() == CoexRun.Step(old(View()), op)
    {
      match op
      case Requested(handle, psm, scid, out, mem, junk) => L2capConReq(handle, psm, scid, out, mem, junk);
      case Responded(handle, dcid, scid, out, result) => L2capConRsp(handle, dcid, scid, out, result);
      case Released(handle, dcid, scid, out) => L2capDisconReq(handle, dcid, scid, out);
      case Media(handle, cid, out, busy) => PacketsCount(handle, cid, out, busy);
    }
  }
}
