/** The line discipline's own form: the bits, the half-written frame, and the worker's drain loop. */
module HciUart {
  import opened Bytes
  import opened H5Link
  import opened H5Device
  import opened TxSched

  lemma DequeueShrinks(l: Link, mem: (bool, bool, bool))
    requires Dequeue(l, mem).0.Some?
    ensures Left(Dequeue(l, mem).1, []) < Left(l, [])
  {}

  lemma PullShrinks(t: Tx, mem: (bool, bool, bool), room: nat)
    requires Fits(t.link) && PullStep(t, mem, room).worker == Draining
    ensures Left(PullStep(t, mem, room).link, PullStep(t, mem, room).held) < Left(t.link, t.held)
  {
    if t.held == [] {
      DequeueShrinks(t.link, mem);
    }
  }

  /** A pull either goes on with less to do, or stops for a reason. */
  lemma PullEnds(t: Tx, mem: (bool, bool, bool), room: nat)
    requires Fits(t.link)
    ensures var u := PullStep(t, mem, room);
      if u.worker == Draining then Left(u.link, u.held) < Left(t.link, t.held)
      else u.held == [] ==> !u.due && (CanSend(u.link) <==> u.starved)
  {
    PullSame(t, mem, room);
    PullStops(t, mem, room);
    if PullStep(t, mem, room).worker == Draining {
      PullShrinks(t, mem, room);
    }
  }

  /** Pulling until the worker stops, against a device and an allocator that answer as given. */
  ghost function DrainAll(t: Tx, mem: nat -> (bool, bool, bool), room: nat -> nat, k: nat): Tx
    requires Fits(t.link)
    decreases Left(t.link, t.held)
  {
    var u := PullStep(t, mem(k), room(k));
    PullEnds(t, mem(k), room(k));
    PullSame(t, mem(k), room(k));
    if u.worker == Draining then DrainAll(u, mem, room, k + 1) else u
  }

  /** One turn of the drain loop. */
  lemma DrainOne(t: Tx, mem: nat -> (bool, bool, bool), room: nat -> nat, k: nat, u: Tx)
    requires Fits(t.link) && u == PullStep(t, mem(k), room(k))
    ensures Fits(u.link) && DrainAll(t, mem, room, k) == if u.worker == Draining then DrainAll(u, mem, room, k + 1) else u
  {
    PullSame(t, mem(k), room(k));
  }

  /** Draining keeps what every reachable state satisfies, and stops for a reason. */
  lemma {:induction false} DrainAllEnds(t: Tx, mem: nat -> (bool, bool, bool), room: nat -> nat, k: nat)
    requires TxSched.Inv(t) && t.worker == Draining
    ensures var u := DrainAll(t, mem, room, k);
      && TxSched.Inv(u) && u.worker == Stopping
      && u.callers == t.callers && u.wakeup == t.wakeup && u.queued == t.queued
      && (u.held == [] ==> !u.due && (CanSend(u.link) <==> u.starved))
    decreases Left(t.link, t.held)
  {
    var u := PullStep(t, mem(k), room(k));
    PullKeeps(t, mem(k), room(k));
    PullSame(t, mem(k), room(k));
    PullEnds(t, mem(k), room(k));
    DrainOne(t, mem, room, k, u);
    if u.worker == Draining {
      DrainAllEnds(u, mem, room, k + 1);
    }
  }

  // ----- The rounds of the work item, with callers in between -----

  type Memory = nat -> (bool, bool, bool)
  type Rooms = nat -> nat

  /** From the restart label to the test of the wakeup bit. */
  ghost function OneRound(t: Tx, mem: Memory, room: Rooms): Tx
    requires Fits(t.link)
  {
    DrainAll(t.(wakeup := false, worker := Draining), mem, room, 0).(sending := false, worker := Testing)
  }

  /** A change that is made and asked for in one call: a packet queued, a timeout, or room on the line. */
  predicate InOneCall(c: Change) {
    c.Queue? || c.TimeOut? || c.Nothing?
  }

  predicate EachInOneCall(cs: seq<Change>) {
    forall k :: 0 <= k < |cs| ==> InOneCall(cs[k])
  }

  /** A caller that makes its change and its whole call just before the test. */
  ghost function Called(t: Tx, i: nat, c: Change): Tx
    requires i < |t.callers|
  {
    ScheduleStep(TestAndSetStep(MarkStep(PrepareStep(t, i, c), i), i), i)
  }

  lemma CallSame(t: Tx, i: nat)
    requires i < |t.callers|
    ensures MarkStep(t, i).link == t.link && |MarkStep(t, i).callers| == |t.callers|
    ensures TestAndSetStep(t, i).link == t.link && |TestAndSetStep(t, i).callers| == |t.callers|
    ensures ScheduleStep(t, i).link == t.link && |ScheduleStep(t, i).callers| == |t.callers|
  {}

  lemma PrepareFits(t: Tx, i: nat, c: Change)
    requires Fits(t.link) && i < |t.callers|
    ensures Fits(PrepareStep(t, i, c).link) && |PrepareStep(t, i, c).callers| == |t.callers|
  {
    ChangedFits(t.link, c);
  }

  lemma CalledFits(t: Tx, i: nat, c: Change)
    requires Fits(t.link) && i < |t.callers|
    ensures Fits(Called(t, i, c).link) && |Called(t, i, c).callers| == |t.callers|
  {
    var a := PrepareStep(t, i, c);
    PrepareFits(t, i, c);
    CallSame(a, i);
    var b := MarkStep(a, i);
    CallSame(b, i);
    CallSame(TestAndSetStep(b, i), i);
  }

  ghost function Tested(t: Tx): Tx {
    t.(worker := if t.wakeup then AtRestart else Asleep)
  }

  /** The work item while caller `i` comes once between the rounds for each change of `late`. */
  ghost function Rounds(t: Tx, mem: nat -> Memory, room: nat -> Rooms, i: nat, late: seq<Change>, r: nat): Tx
    requires Fits(t.link) && i < |t.callers|
    decreases |late|
  {
    var u := OneRound(t, mem(r), room(r));
    RoundFits(t, mem(r), room(r));
    if late == [] then Tested(u) else
      CalledFits(u, i, late[0]);
      Rounds(Tested(Called(u, i, late[0])), mem, room, i, late[1..], r + 1)
  }

  /** Draining leaves alone what only callers touch. */
  lemma {:induction false} DrainAllSame(t: Tx, mem: Memory, room: Rooms, k: nat)
    requires Fits(t.link)
    ensures var u := DrainAll(t, mem, room, k);
      Fits(u.link) && u.callers == t.callers && u.wakeup == t.wakeup && u.queued == t.queued
    decreases Left(t.link, t.held)
  {
    var u := PullStep(t, mem(k), room(k));
    PullSame(t, mem(k), room(k));
    DrainOne(t, mem, room, k, u);
    if u.worker == Draining {
      PullEnds(t, mem(k), room(k));
      DrainAllSame(u, mem, room, k + 1);
    }
  }

  lemma RoundFits(t: Tx, mem: Memory, room: Rooms)
    requires Fits(t.link)
    ensures Fits(OneRound(t, mem, room).link) && OneRound(t, mem, room).callers == t.callers && !OneRound(t, mem, room).wakeup
  {
    DrainAllSame(t.(wakeup := false, worker := Draining), mem, room, 0);
  }

  lemma RoundKeeps(t: Tx, mem: Memory, room: Rooms)
    requires TxSched.Inv(t) && t.worker == AtRestart
    ensures var u := OneRound(t, mem, room);
      && TxSched.Inv(u) && !u.sending && !u.wakeup && u.worker == Testing && u.callers == t.callers
      && (u.held == [] ==> !u.due && (CanSend(u.link) <==> u.starved))
  {
    var s := Step(t, ClearWakeup);
    StepKeeps(t, ClearWakeup);
    DrainAllEnds(s, mem, room, 0);
    StepKeeps(DrainAll(s, mem, room, 0), ClearSending);
  }

  /** Such a change always asks for transmission. */
  lemma PrepareIs(t: Tx, i: nat, c: Change)
    requires i < |t.callers| && t.callers[i] == Away && InOneCall(c)
    ensures PrepareStep(t, i, c) == t.(link := Changed(t.link, c), callers := t.callers[i := Armed], due := true)
  {}

  /** What the three steps of a call come to. */
  lemma CallIs(t: Tx, i: nat)
    requires i < |t.callers| && t.callers[i] == Armed
    ensures ScheduleStep(TestAndSetStep(MarkStep(t, i), i), i)
         == t.(wakeup := true, sending := true, queued := t.queued || !t.sending, callers := t.callers[i := Away])
  {
    assert t.callers[i := Marked][i := Away] == t.callers[i := Away];
    assert t.callers[i := Marked][i := Won][i := Away] == t.callers[i := Away];
  }

  lemma CallKeeps(t: Tx, i: nat)
    requires TxSched.Inv(t) && i < |t.callers|
    ensures TxSched.Inv(ScheduleStep(TestAndSetStep(MarkStep(t, i), i), i))
  {
    var b := MarkStep(t, i);
    MarkKeeps(t, i);
    TestAndSetKeeps(b, i);
    ScheduleKeeps(TestAndSetStep(b, i), i);
  }

  lemma CalledIs(t: Tx, i: nat, c: Change)
    requires i < |t.callers| && t.callers[i] == Away && InOneCall(c)
    ensures Called(t, i, c)
         == t.(link := Changed(t.link, c), due := true, wakeup := true, sending := true, queued := t.queued || !t.sending)
  {
    PrepareIs(t, i, c);
    CallIs(PrepareStep(t, i, c), i);
    assert t.callers[i := Armed][i := Away] == t.callers;
  }

  lemma CalledKeeps(t: Tx, i: nat, c: Change)
    requires TxSched.Inv(t) && i < |t.callers| && t.callers[i] == Away && InOneCall(c)
    ensures TxSched.Inv(Called(t, i, c)) && Called(t, i, c).wakeup && Called(t, i, c).callers == t.callers
    ensures Called(t, i, c).worker == t.worker
  {
    PrepareKeeps(t, i, c);
    CallKeeps(PrepareStep(t, i, c), i);
    CalledIs(t, i, c);
  }

  /** However often callers come between the rounds, the work item ends with their work done too. */
  lemma {:induction false} RoundsEnd(t: Tx, mem: nat -> Memory, room: nat -> Rooms, i: nat, late: seq<Change>, r: nat)
    requires TxSched.Inv(t) && t.worker == AtRestart && i < |t.callers| && t.callers[i] == Away
    requires EachInOneCall(late)
    ensures var u := Rounds(t, mem, room, i, late, r);
      && TxSched.Inv(u) && u.worker == Asleep && !u.sending && !u.wakeup
      && (u.held == [] ==> !u.due && (CanSend(u.link) <==> u.starved))
    decreases |late|
  {
    var u := OneRound(t, mem(r), room(r));
    RoundKeeps(t, mem(r), room(r));
    if late == [] {
      StepKeeps(u, TestWakeup);
    } else {
      CalledKeeps(u, i, late[0]);
      var v := Called(u, i, late[0]);
      StepKeeps(v, TestWakeup);
      RoundsEnd(Tested(v), mem, room, i, late[1..], r + 1);
    }
  }

  class Uart {
    const dev: Device
    var held: seq<Byte>
    var sending: bool
    var wakeup: bool
    var queued: bool
    ghost var wire: seq<Byte>
    ghost var taken: seq<Frame>
    ghost var starved: bool
    ghost var due: bool

    constructor (withCrc: bool)
      ensures fresh(dev) && dev.Valid() && View(Asleep, []) == Fresh(withCrc, 0)
    {
      dev := new Device(withCrc);
      held, sending, wakeup, queued := [], false, false, false;
      wire, taken, starved, due := [], [], false, false;
    }

    ghost function View(worker: Worker, callers: seq<Caller>): Tx
      reads this, dev
    {
      Tx(dev.LinkView(), held, sending, wakeup, queued, worker, callers, wire, taken, starved, due)
    }

    /** A caller's three steps, undisturbed. */
    method TxWakeup(ghost worker: Worker, ghost callers: seq<Caller>, ghost i: nat)
      requires i < |callers| && callers[i] == Armed
      modifies this`wakeup, this`sending, this`queued
      ensures View(worker, callers[i := Away])
           == ScheduleStep(TestAndSetStep(MarkStep(old(View(worker, callers)), i), i), i)
    {
      wakeup := true;
      if !sending {
        sending := true;
        queued := true;
      }
    }

    /** The rest of a half-written frame, or the next one off the link; empty if there is none. */
    method Dequeue(mem: (bool, bool, bool), ghost callers: seq<Caller>) returns (skb: seq<Byte>)
      requires dev.Valid()
      modifies this`held, this`taken, this`starved, this`due, dev
      ensures dev.Valid() && (skb, View(Draining, callers)) == Taken(old(View(Draining, callers)), mem)
    {
      skb := held;
      if skb == [] {
        ghost var l := dev.LinkView();
        var buf, n := dev.Dequeue(mem);
        if buf != null {
          skb := buf[..n];
          taken := taken + [H5Link.Dequeue(l, mem).0.value];
          starved := false;
        } else {
          starved := CanSend(l);
        }
        due := false;
      } else {
        held := [];
      }
    }

    /** Takes a frame and writes what the device has room for; `more` is whether to go on. */
    method Pull(mem: (bool, bool, bool), room: nat, ghost callers: seq<Caller>) returns (more: bool)
      requires dev.Valid()
      modifies this`held, this`taken, this`starved, this`due, this`wire, dev
      ensures dev.Valid()
      ensures View(if more then Draining else Stopping, callers) == PullStep(old(View(Draining, callers)), mem, room)
    {
      var skb := Dequeue(mem, callers);
      var n := if room < |skb| then room else |skb|;
      wire := wire + skb[..n];
      held := skb[n..];
      more := skb != [] && n == |skb|;
    }

    /** The drain loop: takes frames until there is none or one could not be written whole. */
    method Drain(mem: nat -> (bool, bool, bool), room: nat -> nat, ghost callers: seq<Caller>)
      requires dev.Valid()
      modifies this`held, this`taken, this`starved, this`due, this`wire, dev
      ensures dev.Valid() && View(Stopping, callers) == DrainAll(old(View(Draining, callers)), mem, room, 0)
    {
      var k, more := 0, true;
      while more
        invariant dev.Valid()
        invariant DrainAll(old(View(Draining, callers)), mem, room, 0)
               == if more then DrainAll(View(Draining, callers), mem, room, k) else View(Stopping, callers)
        decreases more, Left(dev.LinkView(), held)
      {
        PullEnds(View(Draining, callers), mem(k), room(k));
        more := Pull(mem(k), room(k), callers);
        k := k + 1;
      }
    }

    method MakeChange(c: Change)
      requires dev.Valid() && InOneCall(c)
      modifies dev
      ensures dev.Valid() && dev.LinkView() == Changed(old(dev.LinkView()), c)
    {
      match c {
        case Queue(p) => dev.Enqueue(p);
        case TimeOut => dev.TimedEvent();
        case Nothing =>
      }
    }

    /** A caller makes a change and asks for transmission. */
    method LateCall(c: Change, ghost callers: seq<Caller>, ghost i: nat)
      requires dev.Valid() && i < |callers| && callers[i] == Away && InOneCall(c)
      modifies this`wakeup, this`sending, this`queued, this`due, dev
      ensures dev.Valid() && View(Testing, callers) == Called(old(View(Testing, callers)), i, c)
    {
      PrepareIs(View(Testing, callers), i, c);
      MakeChange(c);
      due := true;
      TxWakeup(Testing, callers[i := Armed], i);
      assert callers[i := Armed][i := Away] == callers;
    }

    /** From the restart label to the test. */
    method Round(mem: Memory, room: Rooms, ghost callers: seq<Caller>)
      requires dev.Valid()
      modifies this, dev
      ensures dev.Valid() && View(Testing, callers) == OneRound(old(View(AtRestart, callers)), mem, room)
    {
      wakeup := false;
      Drain(mem, room, callers);
      sending := false;
    }

    /** How far the work item is on its way to `end`; `rest` are the changes callers still come with. */
    ghost predicate Working(end: Tx, mem: nat -> Memory, room: nat -> Rooms, rest: seq<Change>, callers: seq<Caller>,
                            i: nat, r: nat, again: bool)
      requires i < |callers|
      reads this, dev
    {
      && dev.Valid()
      && end == if again then Rounds(View(AtRestart, callers), mem, room, i, rest, r) else View(Asleep, callers)
    }

    /** One round, and the next late caller before its test. */
    method RoundAndCall(mem: nat -> Memory, room: nat -> Rooms, rest: seq<Change>, ghost callers: seq<Caller>, ghost i: nat,
                        r: nat, ghost end: Tx)
      returns (again: bool, now: seq<Change>)
      requires i < |callers| && callers[i] == Away && EachInOneCall(rest)
      requires Working(end, mem, room, rest, callers, i, r, true)
      modifies this, dev
      ensures Working(end, mem, room, now, callers, i, r + 1, again) && (again ==> |now| < |rest|)
      ensures EachInOneCall(now)
    {
      RoundFits(View(AtRestart, callers), mem(r), room(r));
      Round(mem(r), room(r), callers);
      now := rest;
      if rest != [] {
        CalledIs(View(Testing, callers), i, rest[0]);
        LateCall(rest[0], callers, i);
        now := rest[1..];
      }
      again := wakeup;
    }

    /** The work item; before each test but the last a caller makes the next change of `late` and calls. */
    method WriteWork(mem: nat -> Memory, room: nat -> Rooms, late: seq<Change>, ghost callers: seq<Caller>, ghost i: nat)
      requires dev.Valid() && i < |callers| && callers[i] == Away && EachInOneCall(late)
      modifies this, dev
      ensures dev.Valid() && View(Asleep, callers) == Rounds(old(View(AtRestart, callers)), mem, room, i, late, 0)
    {
      ghost var end := Rounds(View(AtRestart, callers), mem, room, i, late, 0);
      var r, rest, again := 0, late, true;
      while again
        invariant Working(end, mem, room, rest, callers, i, r, again) && EachInOneCall(rest)
        decreases again, |rest|
      {
        again, rest := RoundAndCall(mem, room, rest, callers, i, r, end);
        r := r + 1;
      }
    }
  }
}
