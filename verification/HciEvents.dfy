/** HCI events as a controller writes them, and that the coexistence module reads the right fields out of each. */
module HciEvents {
  import opened Bytes
  import opened Coex
  import opened CoexEvents

  function Le(n: nat): (r: seq<Byte>)
    requires n < 0x10000
    ensures |r| == 2
  {
    [n % 256, n / 256]
  }

  /** An event: its code, the number of octets that follow, and those. */
  function Event(code: Byte, params: seq<Byte>): seq<Byte>
    requires |params| < 256
  {
    [code, |params|] + params
  }

  lemma AtParam(code: Byte, a: seq<Byte>, b: seq<Byte>, k: nat, x: Byte)
    requires |a + b| < 256 && k < |a| && a[k] == x
    ensures At(Event(code, a + b), k + 2) == x && At(Event(code, a + b), 0) == code
  {}

  lemma WordParam(code: Byte, a: seq<Byte>, n: nat, b: seq<Byte>, k: nat)
    requires n < 0x10000 && |a + Le(n) + b| < 256 && k == |a| + 2
    ensures Word(Event(code, a + Le(n) + b), k) == n && At(Event(code, a + Le(n) + b), 0) == code
  {
    var e := Event(code, a + Le(n) + b);
    assert At(e, k) == n % 256 && At(e, k + 1) == n / 256;
  }

  /** The event codes that carry nothing of interest but themselves. */
  lemma BareEvents(params: seq<Byte>)
    requires |params| < 256
    ensures Decode(Event(0x01, params)) == InquiryEnd
    ensures Decode(Event(0x16, params)) == PairStart && Decode(Event(0x31, params)) == PairStart
    ensures Decode(Event(0x06, params)) == PairEnd && Decode(Event(0x18, params)) == PairEnd
    ensures Decode(Event(0xff, params)) == Nothing
  {}

  /** Connection Complete and Synchronous Connection Complete: status, handle, address, link type. */
  lemma ConnectionRead(code: Byte, status: Byte, handle: nat, address: seq<Byte>, link: Byte, rest: seq<Byte>)
    requires (code == 0x03 || code == 0x2c) && handle < 0x10000 && |address| == 6 && |rest| < 200
    ensures Decode(Event(code, [status] + Le(handle) + (address + [link] + rest))) == Connected(status, handle, link)
  {
    var a := [status] + Le(handle) + address + [link];
    assert [status] + Le(handle) + (address + [link] + rest) == a + rest;
    AtParam(code, a, rest, 0, status);
    AtParam(code, a, rest, 9, link);
    WordParam(code, [status], handle, address + [link] + rest, 3);
  }

  /** Disconnection Complete: status, handle, reason. */
  lemma DisconnectionRead(status: Byte, handle: nat, reason: Byte)
    requires handle < 0x10000
    ensures Decode(Event(0x05, [status] + Le(handle) + [reason])) == Disconnected(status, handle)
  {
    var a := [status] + Le(handle);
    AtParam(0x05, a, [reason], 0, status);
    WordParam(0x05, [status], handle, [reason], 3);
  }

  /** Mode Change: status, handle, mode, interval. The status is not looked at. */
  lemma ModeRead(status: Byte, handle: nat, mode: Byte, interval: nat)
    requires handle < 0x10000 && interval < 0x10000
    ensures Decode(Event(0x14, [status] + Le(handle) + ([mode] + Le(interval)))) == Interval(handle, interval)
  {
    WordParam(0x14, [status], handle, [mode] + Le(interval), 3);
    var a := [status] + Le(handle) + [mode];
    assert [status] + Le(handle) + ([mode] + Le(interval)) == a + Le(interval) + [];
    WordParam(0x14, a, interval, [], 6);
  }

  /** Command Complete: how many commands may follow, opcode, status, and what the command returns. */
  function Completed(count: Byte, op: nat, status: Byte, rest: seq<Byte>): seq<Byte>
    requires op < 0x10000 && |rest| < 200
  {
    Event(0x0e, [count] + Le(op) + ([status] + rest))
  }

  lemma CompletedFields(count: Byte, op: nat, status: Byte, rest: seq<Byte>)
    requires op < 0x10000 && |rest| < 200
    ensures var e := Completed(count, op, status, rest); At(e, 0) == 0x0e && Word(e, 3) == op && At(e, 5) == status
  {
    WordParam(0x0e, [count], op, [status] + rest, 3);
    var a := [count] + Le(op) + [status];
    assert [count] + Le(op) + ([status] + rest) == a + rest;
    AtParam(0x0e, a, rest, 3, status);
  }

  /** Only three commands are of interest: periodic inquiry refused, the version, and the profile report not unknown. */
  lemma CompletedRead(count: Byte, op: nat, status: Byte, rest: seq<Byte>)
    requires op < 0x10000 && |rest| < 200 && !(op == 0x1001 && status == 0)
    ensures Decode(Completed(count, op, status, rest)) ==
      if op == 0x0403 && status != 0 then InquiryEnd else if op == 0xfc1b && status != 1 then NewReport else Nothing
  {
    CompletedFields(count, op, status, rest);
  }

  /** Read Local Version: HCI version and revision, LMP version, manufacturer, LMP subversion. */
  lemma VersionRead(count: Byte, hci: Byte, rev: nat, lmp: Byte, maker: nat, sub: nat)
    requires rev < 0x10000 && maker < 0x10000 && sub < 0x10000
    ensures Decode(Completed(count, 0x1001, 0, [hci] + Le(rev) + ([lmp] + Le(maker) + Le(sub)))) == Version(rev, sub)
  {
    var rest := [hci] + Le(rev) + ([lmp] + Le(maker) + Le(sub));
    CompletedFields(count, 0x1001, 0, rest);
    var a := [count] + Le(0x1001) + [0, hci];
    assert [count] + Le(0x1001) + ([0] + rest) == a + Le(rev) + ([lmp] + Le(maker) + Le(sub));
    WordParam(0x0e, a, rev, [lmp] + Le(maker) + Le(sub), 7);
    var b := a + Le(rev) + [lmp] + Le(maker);
    assert [count] + Le(0x1001) + ([0] + rest) == b + Le(sub) + [];
    WordParam(0x0e, b, sub, [], 12);
  }

  /** Command Status: status, how many commands may follow, opcode. */
  lemma StatusRead(status: Byte, count: Byte, op: nat)
    requires op < 0x10000
    ensures Decode(Event(0x0f, [status, count] + Le(op))) ==
      if op == 0x0401 && status != 0 then InquiryEnd else if op == 0x0405 && status == 0 then PageStart else Nothing
  {
    assert [status, count] + Le(op) == [status, count] + Le(op) + [];
    WordParam(0x0f, [status, count], op, [], 4);
    AtParam(0x0f, [status, count], Le(op), 0, status);
  }

  /** LE Connection Complete: status, handle, role, address type and address, interval. */
  lemma LeConnectionRead(status: Byte, handle: nat, middle: seq<Byte>, interval: nat, rest: seq<Byte>)
    requires handle < 0x10000 && |middle| == 8 && interval < 0x10000 && |rest| < 200
    ensures Decode(Event(0x3e, [0x01, status] + Le(handle) + (middle + Le(interval) + rest))) == LeConnected(status, handle, interval)
  {
    LeFields(0x01, status, handle, middle, interval, rest, 14);
  }

  /** LE Enhanced Connection Complete: two more addresses before the interval. */
  lemma LeEnhancedRead(status: Byte, handle: nat, middle: seq<Byte>, interval: nat, rest: seq<Byte>)
    requires handle < 0x10000 && |middle| == 20 && interval < 0x10000 && |rest| < 200
    ensures Decode(Event(0x3e, [0x0a, status] + Le(handle) + (middle + Le(interval) + rest))) == LeConnected(status, handle, interval)
  {
    LeFields(0x0a, status, handle, middle, interval, rest, 26);
  }

  /** LE Connection Update Complete: status, handle, interval. The status is not looked at. */
  lemma LeUpdateRead(status: Byte, handle: nat, interval: nat, rest: seq<Byte>)
    requires handle < 0x10000 && interval < 0x10000 && |rest| < 200
    ensures Decode(Event(0x3e, [0x03, status] + Le(handle) + ([] + Le(interval) + rest))) == Interval(handle, interval)
  {
    LeFields(0x03, status, handle, [], interval, rest, 6);
  }

  lemma LeFields(sub: Byte, status: Byte, handle: nat, middle: seq<Byte>, interval: nat, rest: seq<Byte>, k: nat)
    requires handle < 0x10000 && |middle| <= 20 && interval < 0x10000 && |rest| < 200 && k == 6 + |middle|
    ensures var e := Event(0x3e, [sub, status] + Le(handle) + (middle + Le(interval) + rest));
      At(e, 0) == 0x3e && At(e, 2) == sub && At(e, 3) == status && Word(e, 4) == handle && Word(e, k) == interval
  {
    var behind := middle + Le(interval) + rest;
    WordParam(0x3e, [sub, status], handle, behind, 4);
    assert [sub, status] + Le(handle) + behind == [sub, status] + (Le(handle) + behind);
    AtParam(0x3e, [sub, status], Le(handle) + behind, 0, sub);
    AtParam(0x3e, [sub, status], Le(handle) + behind, 1, status);
    var a := [sub, status] + Le(handle) + middle;
    assert [sub, status] + Le(handle) + behind == a + Le(interval) + rest;
    WordParam(0x3e, a, interval, rest, k);
  }

  /** Every other LE event, and every event code not named above, is of no interest. */
  lemma OthersIdle(code: Byte, params: seq<Byte>)
    requires |params| < 256
    requires code != 0x01 && code != 0x03 && code != 0x05 && code != 0x06 && code != 0x0e && code != 0x0f && code != 0x14
    requires code != 0x16 && code != 0x18 && code != 0x2c && code != 0x31
    requires code == 0x3e ==> params != [] && params[0] != 0x01 && params[0] != 0x03 && params[0] != 0x0a
    ensures Decode(Event(code, params)) == Nothing && (code != 0xff ==> FilteredOut(Event(code, params)))
  {
    if code == 0x3e {
      assert params == [params[0]] + params[1..];
      AtParam(code, [params[0]], params[1..], 0, params[0]);
    }
  }

  // ----- The filter is as sharp as what it looks at allows -----

  /** Alike in all the filter looks at. */
  predicate SameHead(d: seq<Byte>, e: seq<Byte>) {
    && At(d, 0) == At(e, 0)
    && (At(e, 0) == 0x3e ==> At(d, 2) == At(e, 2))
    && (At(e, 0) == 0x0e ==> Word(d, 3) == Word(e, 3))
    && (At(e, 0) == 0x0f ==> Word(d, 4) == Word(e, 4))
  }

  /** An event alike that its handler does something about, if there is any. */
  function Telling(e: seq<Byte>): seq<Byte> {
    var op := if At(e, 0) == 0x0e then Word(e, 3) else Word(e, 4);
    var d := Zeros()[0 := At(e, 0)];
    if At(e, 0) == 0x0e then d[3 := op % 256][4 := op / 256][5 := if op == 0x0403 then 1 else 0]
    else if At(e, 0) == 0x0f then d[2 := if op == 0x0401 then 1 else 0][4 := op % 256][5 := op / 256]
    else d[2 := At(e, 2)]
  }

  lemma TellingAlike(e: seq<Byte>)
    ensures SameHead(Telling(e), e)
  {}

  lemma Tells(e: seq<Byte>)
    requires !FilteredOut(e) && At(e, 0) != 0xff
    ensures Decode(Telling(e)) != Nothing
  {}

  lemma HeadFiltered(d: seq<Byte>, e: seq<Byte>)
    requires SameHead(d, e) && FilteredOut(e)
    ensures Decode(d) == Nothing && At(e, 0) != 0xff
  {}

  /** An event is dropped exactly if no event alike in what the filter looks at matters; vendor events always pass. */
  lemma FilterSharp(e: seq<Byte>)
    ensures FilteredOut(e) <==> At(e, 0) != 0xff && forall d: seq<Byte> :: SameHead(d, e) ==> Decode(d) == Nothing
  {
    if FilteredOut(e) {
      HeadFiltered(e, e);
      forall d: seq<Byte> | SameHead(d, e) ensures Decode(d) == Nothing {
        HeadFiltered(d, e);
      }
    } else if At(e, 0) != 0xff {
      TellingAlike(e);
      Tells(e);
    }
  }
}
