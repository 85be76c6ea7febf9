/** What the coexistence module reads out of an HCI event, and which events it lets pass. */
module CoexEvents {
  import opened Bytes
  import opened Coex
  import EventPipe

  const EV_INQUIRY_COMPLETE: Byte := 0x01
  const EV_CONN_COMPLETE: Byte := 0x03
  const EV_DISCONN_COMPLETE: Byte := 0x05
  const EV_AUTH_COMPLETE: Byte := 0x06
  const EV_CMD_COMPLETE: Byte := 0x0e
  const EV_CMD_STATUS: Byte := 0x0f
  const EV_MODE_CHANGE: Byte := 0x14
  const EV_PIN_CODE_REQ: Byte := 0x16
  const EV_LINK_KEY_NOTIFY: Byte := 0x18
  const EV_SYNC_CONN_COMPLETE: Byte := 0x2c
  const EV_IO_CAPA_REQUEST: Byte := 0x31
  const EV_LE_META: Byte := 0x3e
  const EV_VENDOR: Byte := 0xff

  const LE_CONN_COMPLETE: Byte := 0x01
  const LE_CONN_UPDATE: Byte := 0x03
  const LE_ENHANCED_CONN: Byte := 0x0a

  const OP_INQUIRY: nat := 0x0401
  const OP_PERIODIC_INQ: nat := 0x0403
  const OP_CREATE_CONN: nat := 0x0405
  const OP_READ_LOCAL_VERSION: nat := 0x1001
  const OP_SET_PROFILE_REPORT: nat := 0xfc1b

  /** The octet at `k` of a buffer; the buffers the source reads from are never shorter than it reads. */
  function At(d: seq<Byte>, k: nat): Byte {
    if k < |d| then d[k] else 0
  }

  function Word(d: seq<Byte>, k: nat): nat {
    var low: int, high: int := At(d, k), At(d, k + 1);
    low + 0x100 * high
  }

  function DecodeComplete(d: seq<Byte>): Msg {
    var op := Word(d, 3);
    if op == OP_PERIODIC_INQ then (if At(d, 5) != 0 then InquiryEnd else Nothing)
    else if op == OP_READ_LOCAL_VERSION then (if At(d, 5) == 0 then Version(Word(d, 7), Word(d, 12)) else Nothing)
    else if op == OP_SET_PROFILE_REPORT then (if At(d, 5) == 1 then Nothing else NewReport)
    else Nothing
  }

  function DecodeStatus(d: seq<Byte>): Msg {
    var op := Word(d, 4);
    if op == OP_INQUIRY && At(d, 2) != 0 then InquiryEnd
    else if op == OP_CREATE_CONN && At(d, 2) == 0 then PageStart
    else Nothing
  }

  function DecodeLe(d: seq<Byte>): Msg {
    var sub := At(d, 2);
    if sub == LE_CONN_COMPLETE then LeConnected(At(d, 3), Word(d, 4), Word(d, 14))
    else if sub == LE_ENHANCED_CONN then LeConnected(At(d, 3), Word(d, 4), Word(d, 26))
    else if sub == LE_CONN_UPDATE then Interval(Word(d, 4), Word(d, 6))
    else Nothing
  }

  /** The dispatch on the event code, and what each handler reads. */
  function Decode(d: seq<Byte>): Msg {
    var code := At(d, 0);
    if code == EV_INQUIRY_COMPLETE then InquiryEnd
    else if code == EV_PIN_CODE_REQ || code == EV_IO_CAPA_REQUEST then PairStart
    else if code == EV_AUTH_COMPLETE || code == EV_LINK_KEY_NOTIFY then PairEnd
    else if code == EV_MODE_CHANGE then Interval(Word(d, 3), Word(d, 6))
    else if code == EV_CMD_COMPLETE then DecodeComplete(d)
    else if code == EV_CMD_STATUS then DecodeStatus(d)
    else if code == EV_CONN_COMPLETE || code == EV_SYNC_CONN_COMPLETE then Connected(At(d, 2), Word(d, 3), At(d, 11))
    else if code == EV_DISCONN_COMPLETE then Disconnected(At(d, 2), Word(d, 3))
    else if code == EV_LE_META then DecodeLe(d)
    else Nothing
  }

  /** Events not worth a buffer. */
  predicate FilteredOut(d: seq<Byte>) {
    var code := At(d, 0);
    if code == EV_LE_META then
      At(d, 2) != LE_CONN_COMPLETE && At(d, 2) != LE_ENHANCED_CONN && At(d, 2) != LE_CONN_UPDATE
    else if code == EV_CMD_COMPLETE then
      Word(d, 3) != OP_PERIODIC_INQ && Word(d, 3) != OP_READ_LOCAL_VERSION && Word(d, 3) != OP_SET_PROFILE_REPORT
    else if code == EV_CMD_STATUS then Word(d, 4) != OP_INQUIRY && Word(d, 4) != OP_CREATE_CONN
    else
      code != EV_INQUIRY_COMPLETE && code != EV_PIN_CODE_REQ && code != EV_IO_CAPA_REQUEST && code != EV_AUTH_COMPLETE
      && code != EV_LINK_KEY_NOTIFY && code != EV_MODE_CHANGE && code != EV_CONN_COMPLETE
      && code != EV_SYNC_CONN_COMPLETE && code != EV_DISCONN_COMPLETE && code != EV_VENDOR
  }

  /** A filtered event would have changed nothing. */
  lemma FilteredIsNothing(e: seq<Byte>)
    requires FilteredOut(e)
    ensures Decode(e) == Nothing
  {}

  // ----- Events shorter than their handlers read -----

  /** The size of the buffers events are copied into. */
  const ROOM: nat := EventPipe.ROOM

  predicate SettledComplete(e: seq<Byte>)
    requires |e| >= 2
  {
    var low, n := At(e, 3), |e|;
    if n <= 3 then false
    else if n == 4 then low != 0x03 && low != 0x01 && low != 0x1b
    else if Word(e, 3) == OP_READ_LOCAL_VERSION then n >= 6 && (At(e, 5) == 0 ==> n >= 14)
    else if Word(e, 3) == OP_PERIODIC_INQ || Word(e, 3) == OP_SET_PROFILE_REPORT then n >= 6
    else true
  }

  predicate SettledStatus(e: seq<Byte>)
    requires |e| >= 2
  {
    |e| >= 6 || (|e| == 5 && !(At(e, 4) == 0x01 && At(e, 2) != 0) && !(At(e, 4) == 0x05 && At(e, 2) == 0))
  }

  predicate SettledLe(e: seq<Byte>)
    requires |e| >= 2
  {
    |e| >= 3 &&
    (At(e, 2) == LE_CONN_COMPLETE ==> |e| >= 16) &&
    (At(e, 2) == LE_ENHANCED_CONN ==> |e| >= 28) &&
    (At(e, 2) == LE_CONN_UPDATE ==> |e| >= 8)
  }

  /** The octets an event has decide what its handler makes of it. */
  predicate Settled(e: seq<Byte>)
    requires |e| >= 2
  {
    var code := e[0];
    if code == EV_MODE_CHANGE then |e| >= 8
    else if code == EV_CMD_COMPLETE then SettledComplete(e)
    else if code == EV_CMD_STATUS then SettledStatus(e)
    else if code == EV_CONN_COMPLETE || code == EV_SYNC_CONN_COMPLETE then |e| >= 12
    else if code == EV_DISCONN_COMPLETE then |e| >= 5
    else if code == EV_LE_META then SettledLe(e)
    else true
  }

  /** The buffer agrees with the event as far as the event goes. */
  predicate Extends(d: seq<Byte>, e: seq<Byte>) {
    forall k :: 0 <= k < ROOM && k < |e| ==> At(d, k) == At(e, k)
  }

  lemma ExtendsWord(d: seq<Byte>, e: seq<Byte>, k: nat)
    requires Extends(d, e) && k + 1 < |e| && k + 1 < ROOM
    ensures Word(d, k) == Word(e, k)
  {}

  lemma CompleteReads(d: seq<Byte>, e: seq<Byte>)
    requires |e| >= 2 && Extends(d, e) && SettledComplete(e)
    ensures DecodeComplete(d) == DecodeComplete(e)
  {
    assert At(d, 3) == At(e, 3);
    if |e| >= 5 {
      ExtendsWord(d, e, 3);
    }
    if |e| >= 6 {
      assert At(d, 5) == At(e, 5);
    }
    if |e| >= 14 {
      ExtendsWord(d, e, 7);
      ExtendsWord(d, e, 12);
    }
  }

  lemma StatusReads(d: seq<Byte>, e: seq<Byte>)
    requires |e| >= 2 && Extends(d, e) && SettledStatus(e)
    ensures DecodeStatus(d) == DecodeStatus(e)
  {
    assert At(d, 2) == At(e, 2) && At(d, 4) == At(e, 4);
    if |e| >= 6 {
      ExtendsWord(d, e, 4);
    }
  }

  lemma LeReads(d: seq<Byte>, e: seq<Byte>)
    requires |e| >= 2 && Extends(d, e) && SettledLe(e)
    ensures DecodeLe(d) == DecodeLe(e)
  {
    assert At(d, 2) == At(e, 2);
    if |e| >= 8 {
      assert At(d, 3) == At(e, 3);
      ExtendsWord(d, e, 4);
      ExtendsWord(d, e, 6);
    }
    if |e| >= 16 {
      ExtendsWord(d, e, 14);
    }
    if |e| >= 28 {
      ExtendsWord(d, e, 26);
    }
  }

  /** A settled event is read alike whatever stands behind it. */
  lemma SettledReads(d: seq<Byte>, e: seq<Byte>)
    requires |e| >= 2 && Extends(d, e) && Settled(e)
    ensures Decode(d) == Decode(e)
  {
    assert At(d, 0) == At(e, 0) == e[0];
    var code := e[0];
    if code == EV_CMD_COMPLETE {
      CompleteReads(d, e);
    } else if code == EV_CMD_STATUS {
      StatusReads(d, e);
    } else if code == EV_LE_META {
      LeReads(d, e);
    } else if code == EV_MODE_CHANGE {
      ExtendsWord(d, e, 3);
      ExtendsWord(d, e, 6);
    } else if code == EV_CONN_COMPLETE || code == EV_SYNC_CONN_COMPLETE {
      assert At(d, 2) == At(e, 2) && At(d, 11) == At(e, 11);
      ExtendsWord(d, e, 3);
    } else if code == EV_DISCONN_COMPLETE {
      assert At(d, 2) == At(e, 2);
      ExtendsWord(d, e, 3);
    }
  }

  lemma FilledExtends(was: seq<Byte>, e: seq<Byte>)
    requires |was| == ROOM
    ensures Extends(Filled(was, e), e)
  {}

  function Zeros(): (r: seq<Byte>)
    ensures |r| == ROOM && forall k :: 0 <= k < ROOM ==> r[k] == 0
  {
    seq(ROOM, k => 0)
  }

  /** Octets that make an unsettled event mean something else than zeros do. */
  function Other(e: seq<Byte>): (r: seq<Byte>)
    requires |e| >= 2
    ensures |r| == ROOM
  {
    var z, code, n := Zeros(), e[0], |e|;
    if code == EV_MODE_CHANGE then z[7 := 1]
    else if code == EV_CMD_COMPLETE then
      if n <= 3 then z[3 := 0x03][4 := 0x04][5 := 1]
      else if n == 4 then z[4 := if At(e, 3) == 0x03 then 0x04 else if At(e, 3) == 0x01 then 0x10 else 0xfc][5 := if At(e, 3) == 0x03 then 1 else 0]
      else if n == 5 then z[5 := 1]
      else z[13 := 1]
    else if code == EV_CMD_STATUS then
      if n == 2 then z[4 := 0x05][5 := 0x04] else z[4 := if At(e, 2) == 0 then 0x05 else 0x01][5 := 0x04]
    else if code == EV_CONN_COMPLETE || code == EV_SYNC_CONN_COMPLETE then z[11 := 1]
    else if code == EV_DISCONN_COMPLETE then z[4 := 1]
    else if code == EV_LE_META then
      if n == 2 then z[2 := LE_CONN_UPDATE]
      else if At(e, 2) == LE_CONN_COMPLETE then z[15 := 1]
      else if At(e, 2) == LE_ENHANCED_CONN then z[27 := 1]
      else z[7 := 1]
    else z
  }

  lemma UnsettledComplete(e: seq<Byte>, x: seq<Byte>, y: seq<Byte>)
    requires |e| >= 2 && e[0] == EV_CMD_COMPLETE && !SettledComplete(e) && x == Filled(Zeros(), e) && y == Filled(Other(e), e)
    ensures DecodeComplete(x) != DecodeComplete(y)
  {}

  lemma UnsettledStatus(e: seq<Byte>, x: seq<Byte>, y: seq<Byte>)
    requires |e| >= 2 && e[0] == EV_CMD_STATUS && !SettledStatus(e) && x == Filled(Zeros(), e) && y == Filled(Other(e), e)
    ensures DecodeStatus(x) != DecodeStatus(y)
  {}

  lemma UnsettledLe(e: seq<Byte>, x: seq<Byte>, y: seq<Byte>)
    requires |e| >= 2 && e[0] == EV_LE_META && !SettledLe(e) && x == Filled(Zeros(), e) && y == Filled(Other(e), e)
    ensures DecodeLe(x) != DecodeLe(y)
  {}

  lemma UnsettledDiffers(e: seq<Byte>)
    requires |e| >= 2 && !Settled(e)
    ensures Decode(Filled(Zeros(), e)) != Decode(Filled(Other(e), e))
  {
    var x, y := Filled(Zeros(), e), Filled(Other(e), e);
    if e[0] == EV_CMD_COMPLETE {
      UnsettledComplete(e, x, y);
    } else if e[0] == EV_CMD_STATUS {
      UnsettledStatus(e, x, y);
    } else if e[0] == EV_LE_META {
      UnsettledLe(e, x, y);
    }
  }

  /** What was in the buffer before is invisible exactly for settled events. */
  lemma StaleExactly(e: seq<Byte>)
    requires |e| >= 2
    ensures Settled(e) <==>
      forall was: seq<Byte>, was': seq<Byte> :: |was| == ROOM && |was'| == ROOM ==> Decode(Filled(was, e)) == Decode(Filled(was', e))
  {
    if Settled(e) {
      forall was: seq<Byte>, was': seq<Byte> | |was| == ROOM && |was'| == ROOM
        ensures Decode(Filled(was, e)) == Decode(Filled(was', e))
      {
        FilledExtends(was, e);
        FilledExtends(was', e);
        SettledReads(Filled(was, e), e);
        SettledReads(Filled(was', e), e);
      }
    } else {
      UnsettledDiffers(e);
    }
  }

  /** Whatever the filter sees behind a settled event, dropping the event loses nothing. */
  lemma FilterLosesNothing(e: seq<Byte>, stale: seq<Byte>)
    requires |e| >= 2 && Settled(e) && FilteredOut(e + stale)
    ensures Decode(e) == Nothing
  {
    FilteredIsNothing(e + stale);
    SettledReads(e + stale, e);
  }
}
