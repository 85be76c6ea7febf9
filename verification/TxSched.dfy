/**
 * Scheduling of the transmit worker: any number of callers that ask for transmission, one worker
 * that drains the link into the serial device, and every interleaving of their atomic steps.
 */
module TxSched {
  import opened Bytes
  import opened H5Link
  import opened H5Codec

  /**
   * A caller: not involved, between the two locked sections of accepting a frame, about to ask for
   * transmission, past setting the wakeup bit, or holding the sending bit.
   */
  datatype Caller = Away | Busy(f: Frame) | Armed | Marked | Won

  /** The worker: not running, or at one of the four places between its atomic steps. */
  datatype Worker = Asleep | AtRestart | Draining | Stopping | Testing

  /**
   * `held` is what is left of a partly written frame, `queued` whether the work item is pending.
   * History: octets written, frames taken, whether the last attempt to take a frame found one but
   * was refused the memory for it, and whether a caller came since the last attempt.
   */
  datatype Tx = Tx(link: Link, held: seq<Byte>, sending: bool, wakeup: bool, queued: bool,
                   worker: Worker, callers: seq<Caller>,
                   wire: seq<Byte>, taken: seq<Frame>, starved: bool, due: bool)

  /**
   * What a caller does to the link: queue a packet, take a frame in and finish with it, meet one out of
   * order, put back what was not acknowledged, or nothing (the serial device has room again).
   */
  datatype Change = Queue(p: Packet) | Note(f: Frame) | Complete(f: Frame) | Repeat | TimeOut | Nothing

  datatype Act =
    | Prepare(i: nat, c: Change)
    | Mark(i: nat)
    | TestAndSet(i: nat)
    | Schedule(i: nat)
    | Begin
    | ClearWakeup
    | Pull(mem: (bool, bool, bool), room: nat)
    | ClearSending
    | TestWakeup

  function Fresh(useCrc: bool, callers: nat): Tx {
    Tx(H5Link.Opened(useCrc), [], false, false, false, Asleep, seq(callers, i => Away), [], [], false, false)
  }

  // ----- The steps -----

  function Changed(l: Link, c: Change): Link {
    match c
    case Queue(p) => Enqueue(l, p)
    case Note(f) => Accept(l, f)
    case Complete(f) => Finish(l, f)
    case Repeat => OutOfOrder(l)
    case TimeOut => RollBack(l)
    case Nothing => l
  }

  /** The line discipline itself asks after queueing and when there is room; for the rest the protocol has to. */
  predicate Asks(l: Link, c: Change) {
    c.Queue? || c.Nothing? || Changed(l, c).wakes > l.wakes
  }

  /** The change is made; whether transmission is asked for is up to whoever makes it. */
  function Made(t: Tx, i: nat, c: Change): Tx
    requires i < |t.callers|
  {
    var asks := Asks(t.link, c);
    t.(link := Changed(t.link, c), callers := t.callers[i := if asks then Armed else Away], due := t.due || asks)
  }

  function PrepareStep(t: Tx, i: nat, c: Change): Tx
    requires i < |t.callers|
  {
    if c.Complete? then
      if t.callers[i] == Busy(c.f) then Made(t, i, c) else t
    else if t.callers[i] != Away then t
    else if c.Note? then t.(link := Changed(t.link, c), callers := t.callers[i := Busy(c.f)])
    else Made(t, i, c)
  }

  function MarkStep(t: Tx, i: nat): Tx
    requires i < |t.callers|
  {
    if t.callers[i] == Armed then t.(wakeup := true, callers := t.callers[i := Marked]) else t
  }

  function TestAndSetStep(t: Tx, i: nat): Tx
    requires i < |t.callers|
  {
    if t.callers[i] == Marked
    then t.(sending := true, callers := t.callers[i := if t.sending then Away else Won])
    else t
  }

  function ScheduleStep(t: Tx, i: nat): Tx
    requires i < |t.callers|
  {
    if t.callers[i] == Won then t.(queued := true, callers := t.callers[i := Away]) else t
  }

  /** The frame to write: the rest of a partly written one first, else the next one off the link. */
  function Taken(t: Tx, mem: (bool, bool, bool)): (seq<Byte>, Tx)
    requires Fits(t.link)
  {
    if t.held != [] then (t.held, t.(held := []))
    else
      var d := Dequeue(t.link, mem);
      if d.0.Some? then (Encode(d.0.value), t.(link := d.1, taken := t.taken + [d.0.value], starved := false, due := false))
      else ([], t.(starved := CanSend(t.link), due := false))
  }

  /** Writes as much as the device has room for; stops if there is nothing or something is left. */
  function PullStep(t: Tx, mem: (bool, bool, bool), room: nat): Tx
    requires Fits(t.link)
  {
    var (skb, u) := Taken(t, mem);
    var n := if room < |skb| then room else |skb|;
    u.(wire := u.wire + skb[..n], held := skb[n..], worker := if skb == [] || n < |skb| then Stopping else Draining)
  }

  /** How much a worker that is not disturbed can still take. */
  function Left(l: Link, held: seq<Byte>): nat {
    |l.rel| + |l.unrel| + (if l.ackReq then 1 else 0) + (if held != [] then 1 else 0)
  }

  /** A step that is not enabled changes nothing. */
  function Step(t: Tx, act: Act): Tx
    requires Fits(t.link)
  {
    match act
    case Prepare(i, c) => if i < |t.callers| then PrepareStep(t, i, c) else t
    case Mark(i) => if i < |t.callers| then MarkStep(t, i) else t
    case TestAndSet(i) => if i < |t.callers| then TestAndSetStep(t, i) else t
    case Schedule(i) => if i < |t.callers| then ScheduleStep(t, i) else t
    case Begin => if t.worker == Asleep && t.queued then t.(worker := AtRestart, queued := false) else t
    case ClearWakeup => if t.worker == AtRestart then t.(wakeup := false, worker := Draining) else t
    case Pull(mem, room) => if t.worker == Draining then PullStep(t, mem, room) else t
    case ClearSending => if t.worker == Stopping then t.(sending := false, worker := Testing) else t
    case TestWakeup => if t.worker == Testing then t.(worker := if t.wakeup then AtRestart else Asleep) else t
  }

  /** The state after a run. */
  function Run(t: Tx, acts: seq<Act>): (r: Tx)
    requires Fits(t.link)
    ensures Fits(r.link)
  {
    if acts == [] then t else
      var u := Run(t, acts[..|acts| - 1]);
      StepFits(u, acts[|acts| - 1]);
      Step(u, acts[|acts| - 1])
  }

  // ----- Queued packets fit a frame -----

  lemma ChangedFits(l: Link, c: Change)
    requires Fits(l)
    ensures Fits(Changed(l, c))
  {}

  lemma DequeueFits(l: Link, mem: (bool, bool, bool))
    requires Fits(l)
    ensures Fits(Dequeue(l, mem).1)
    ensures Dequeue(l, mem).0.Some? ==> Sendable(Dequeue(l, mem).0.value)
  {}

  lemma StepFits(t: Tx, act: Act)
    requires Fits(t.link)
    ensures Fits(Step(t, act).link)
  {
    match act
    case Prepare(i, c) => ChangedFits(t.link, c);
    case Pull(mem, room) => DequeueFits(t.link, mem);
    case _ =>
  }

  // ----- What every reachable state satisfies -----

  predicate Has(ws: seq<Caller>, w: Caller) {
    exists i :: 0 <= i < |ws| && ws[i] == w
  }

  /** Somebody is in the middle of accepting a frame. */
  predicate HasBusy(ws: seq<Caller>) {
    exists i :: 0 <= i < |ws| && ws[i].Busy?
  }

  /** Another run of the worker is certain. */
  predicate Coming(t: Tx) {
    Has(t.callers, Won) || t.queued
  }

  /** Neither bit is ever set with nobody left to clear it. */
  predicate BitsOk(t: Tx) {
    && (t.sending ==> Coming(t) || t.worker == AtRestart || t.worker == Draining || t.worker == Stopping)
    && (t.wakeup ==> Has(t.callers, Marked) || Coming(t) || t.worker != Asleep)
  }

  /** Another attempt to take a frame is certain. */
  predicate AttemptComing(t: Tx) {
    Has(t.callers, Armed) || t.wakeup || Coming(t) || t.worker == AtRestart || t.worker == Draining
  }

  /** Neither something to send nor a caller's request is ever left with nobody on the way to it. */
  predicate DrainOk(t: Tx) {
    && (CanSend(t.link) && t.held == [] && !t.starved ==> AttemptComing(t) || HasBusy(t.callers))
    && (t.due && t.held == [] ==> AttemptComing(t))
    && (t.starved ==> CanSend(t.link))
  }

  /** The octets of some frames, one after the other. */
  ghost function Flat(fs: seq<Frame>): seq<Byte>
    requires forall i :: 0 <= i < |fs| ==> Sendable(fs[i])
  {
    if fs == [] then [] else Flat(fs[..|fs| - 1]) + Encode(fs[|fs| - 1])
  }

  /** Written octets and the held rest are the frames taken, whole and in order. */
  ghost predicate OctetsOk(t: Tx) {
    (forall i :: 0 <= i < |t.taken| ==> Sendable(t.taken[i])) && t.wire + t.held == Flat(t.taken)
  }

  ghost predicate Inv(t: Tx) {
    Fits(t.link) && BitsOk(t) && DrainOk(t) && OctetsOk(t)
  }

  /** Nobody is inside a call and the work is neither pending nor running. */
  predicate Quiet(t: Tx) {
    (forall i :: 0 <= i < |t.callers| ==> t.callers[i] == Away) && !t.queued && t.worker == Asleep
  }

  // ----- Steps of the callers -----

  lemma HasMoved(ws: seq<Caller>, i: nat, w: Caller, x: Caller)
    requires i < |ws|
    ensures Has(ws[i := x], x)
    ensures Has(ws, w) && ws[i] != w ==> Has(ws[i := x], w)
  {
    assert ws[i := x][i] == x;
    if Has(ws, w) && ws[i] != w {
      var k :| 0 <= k < |ws| && ws[k] == w;
      assert ws[i := x][k] == w;
    }
  }

  lemma Moved(t: Tx, i: nat, x: Caller)
    requires i < |t.callers|
    ensures forall w :: Has(t.callers, w) && t.callers[i] != w ==> Has(t.callers[i := x], w)
    ensures Has(t.callers[i := x], x)
  {
    forall w ensures Has(t.callers, w) && t.callers[i] != w ==> Has(t.callers[i := x], w) {
      HasMoved(t.callers, i, w, x);
    }
    HasMoved(t.callers, i, x, x);
  }

  /** No caller can take away something to send. */
  lemma ChangeKeeps(l: Link, c: Change)
    requires CanSend(l)
    ensures CanSend(Changed(l, c))
  {}

  lemma BusyMoved(ws: seq<Caller>, i: nat, x: Caller)
    requires i < |ws|
    ensures x.Busy? ==> HasBusy(ws[i := x])
    ensures HasBusy(ws) && !ws[i].Busy? ==> HasBusy(ws[i := x])
  {
    assert ws[i := x][i] == x;
    if HasBusy(ws) && !ws[i].Busy? {
      var k :| 0 <= k < |ws| && ws[k].Busy?;
      assert ws[i := x][k] == ws[k];
    }
  }

  /** The two sections of accepting a frame that is in order come to receiving it, and end with a request. */
  lemma ReceivedWhole(t: Tx, i: nat, f: Frame)
    requires i < |t.callers| && t.callers[i] == Away && Admits(t.link, f)
    ensures var a := PrepareStep(t, i, Note(f));
      && a.callers == t.callers[i := Busy(f)]
      && PrepareStep(a, i, Complete(f)) == t.(link := Receive(t.link, f), callers := t.callers[i := Armed], due := true)
  {
    assert t.callers[i := Busy(f)][i := Armed] == t.callers[i := Armed];
  }

  /** One that is not in order is answered with a request too. */
  lemma RepeatedWhole(t: Tx, i: nat, f: Frame)
    requires i < |t.callers| && t.callers[i] == Away && !Admits(t.link, f)
    ensures PrepareStep(t, i, Repeat) == t.(link := Receive(t.link, f), callers := t.callers[i := Armed], due := true)
  {}

  /** Whoever gives the transmitter something to do, and ends with it, asks for transmission. */
  lemma WorkAsked(l: Link, c: Change)
    requires !c.Note?
    ensures CanSend(Changed(l, c)) ==> Asks(l, c)
  {}

  lemma MadeKeeps(t: Tx, i: nat, c: Change)
    requires Inv(t) && i < |t.callers| && !c.Note? && (t.callers[i] == Away || t.callers[i].Busy?)
    ensures Inv(Made(t, i, c))
  {
    var x := if Asks(t.link, c) then Armed else Away;
    ChangedFits(t.link, c);
    Moved(t, i, x);
    WorkAsked(t.link, c);
    if CanSend(t.link) {
      ChangeKeeps(t.link, c);
    }
  }

  lemma NoteKeeps(t: Tx, i: nat, f: Frame)
    requires Inv(t) && i < |t.callers| && t.callers[i] == Away
    ensures Inv(t.(link := Accept(t.link, f), callers := t.callers[i := Busy(f)]))
  {
    Moved(t, i, Busy(f));
    BusyMoved(t.callers, i, Busy(f));
    if CanSend(t.link) {
      ChangeKeeps(t.link, Note(f));
    }
  }

  lemma PrepareKeeps(t: Tx, i: nat, c: Change)
    requires Inv(t) && i < |t.callers|
    ensures Inv(PrepareStep(t, i, c))
  {
    if c.Note? {
      if t.callers[i] == Away {
        NoteKeeps(t, i, c.f);
      }
    } else if t.callers[i] == if c.Complete? then Busy(c.f) else Away {
      MadeKeeps(t, i, c);
    }
  }

  lemma MarkKeeps(t: Tx, i: nat)
    requires Inv(t) && i < |t.callers|
    ensures Inv(MarkStep(t, i))
  {
    Moved(t, i, Marked);
    BusyMoved(t.callers, i, Marked);
  }

  /** A caller that finds the sending bit set leaves; whoever set it is bound to see the wakeup bit. */
  lemma TestAndSetKeeps(t: Tx, i: nat)
    requires Inv(t) && i < |t.callers|
    ensures Inv(TestAndSetStep(t, i))
  {
    Moved(t, i, if t.sending then Away else Won);
    BusyMoved(t.callers, i, if t.sending then Away else Won);
  }

  lemma ScheduleKeeps(t: Tx, i: nat)
    requires Inv(t) && i < |t.callers|
    ensures Inv(ScheduleStep(t, i))
  {
    Moved(t, i, Away);
    BusyMoved(t.callers, i, Away);
  }

  // ----- Steps of the worker -----

  lemma DequeueSends(l: Link, mem: (bool, bool, bool))
    ensures Dequeue(l, mem).0.Some? ==> CanSend(l)
    ensures Dequeue(l, (true, true, true)).0.Some? <==> CanSend(l)
  {}

  lemma FlatOne(fs: seq<Frame>, f: Frame)
    requires (forall i :: 0 <= i < |fs| ==> Sendable(fs[i])) && Sendable(f)
    ensures Flat(fs + [f]) == Flat(fs) + Encode(f)
  {
    assert (fs + [f])[..|fs|] == fs;
  }

  lemma Split(w: seq<Byte>, s: seq<Byte>, n: nat)
    requires n <= |s|
    ensures w + s[..n] + s[n..] == w + s
  {
    assert s == s[..n] + s[n..];
  }

  lemma TakenOctets(t: Tx, mem: (bool, bool, bool))
    requires Fits(t.link) && OctetsOk(t)
    ensures var (skb, u) := Taken(t, mem);
      (forall i :: 0 <= i < |u.taken| ==> Sendable(u.taken[i])) && u.wire + skb == Flat(u.taken)
  {
    if t.held == [] {
      assert t.wire + [] == t.wire;
      var f := Dequeue(t.link, mem).0;
      if f.Some? {
        DequeueFits(t.link, mem);
        FlatOne(t.taken, f.value);
      }
    }
  }

  lemma PullOctets(t: Tx, mem: (bool, bool, bool), room: nat)
    requires Fits(t.link) && OctetsOk(t)
    ensures OctetsOk(PullStep(t, mem, room))
  {
    var (skb, u) := Taken(t, mem);
    TakenOctets(t, mem);
    Split(u.wire, skb, if room < |skb| then room else |skb|);
  }

  /** What only callers touch stays. */
  lemma PullSame(t: Tx, mem: (bool, bool, bool), room: nat)
    requires Fits(t.link)
    ensures var u := PullStep(t, mem, room);
      && u.callers == t.callers && u.wakeup == t.wakeup && u.queued == t.queued && u.sending == t.sending
      && (u.worker == Draining || u.worker == Stopping) && Fits(u.link)
  {
    DequeueFits(t.link, mem);
  }

  lemma EncodeNotEmpty(f: Frame)
    requires Sendable(f)
    ensures Encode(f) != []
  {}

  lemma TakenNothing(t: Tx, mem: (bool, bool, bool))
    requires Fits(t.link)
    ensures var (skb, u) := Taken(t, mem); skb == [] ==> !u.due && (CanSend(u.link) <==> u.starved)
  {
    var f := Dequeue(t.link, mem).0;
    if t.held == [] && f.Some? {
      DequeueFits(t.link, mem);
      EncodeNotEmpty(f.value);
    }
  }

  /** The worker stops with nothing held only after an attempt that found nothing or was refused memory. */
  lemma PullStops(t: Tx, mem: (bool, bool, bool), room: nat)
    requires Fits(t.link)
    ensures var u := PullStep(t, mem, room);
      u.worker == Stopping && u.held == [] ==> !u.due && (CanSend(u.link) <==> u.starved)
  {
    TakenNothing(t, mem);
  }

  lemma PullStarved(t: Tx, mem: (bool, bool, bool), room: nat)
    requires Fits(t.link) && (t.starved ==> CanSend(t.link))
    ensures var u := PullStep(t, mem, room); u.starved ==> CanSend(u.link)
  {}

  lemma PullBits(t: Tx, u: Tx)
    requires BitsOk(t) && t.worker == Draining && u.callers == t.callers && u.wakeup == t.wakeup && u.queued == t.queued
    requires u.sending == t.sending && (u.worker == Draining || u.worker == Stopping)
    ensures BitsOk(u)
  {}

  lemma PullDrain(u: Tx)
    requires u.worker == Draining || u.worker == Stopping
    requires u.worker == Stopping && u.held == [] ==> !u.due && (CanSend(u.link) <==> u.starved)
    requires u.starved ==> CanSend(u.link)
    ensures DrainOk(u)
  {}

  lemma PullKeeps(t: Tx, mem: (bool, bool, bool), room: nat)
    requires Inv(t) && t.worker == Draining
    ensures Inv(PullStep(t, mem, room))
  {
    var u := PullStep(t, mem, room);
    PullOctets(t, mem, room);
    PullSame(t, mem, room);
    PullStops(t, mem, room);
    PullStarved(t, mem, room);
    PullBits(t, u);
    PullDrain(u);
  }

  lemma BeginKeeps(t: Tx)
    requires Inv(t)
    ensures Inv(Step(t, Begin))
  {}

  lemma ClearWakeupKeeps(t: Tx)
    requires Inv(t)
    ensures Inv(Step(t, ClearWakeup))
  {}

  lemma ClearSendingKeeps(t: Tx)
    requires Inv(t)
    ensures Inv(Step(t, ClearSending))
  {}

  lemma TestWakeupKeeps(t: Tx)
    requires Inv(t)
    ensures Inv(Step(t, TestWakeup))
  {}

  lemma PullAct(t: Tx, mem: (bool, bool, bool), room: nat)
    requires Inv(t)
    ensures Inv(Step(t, Pull(mem, room)))
  {
    if t.worker == Draining {
      PullKeeps(t, mem, room);
    }
  }

  // ----- Every run -----

  lemma CallerKeeps(t: Tx, act: Act)
    requires Inv(t) && (act.Prepare? || act.Mark? || act.TestAndSet? || act.Schedule?)
    ensures Inv(Step(t, act))
  {
    if act.i < |t.callers| {
      match act
      case Prepare(i, c) => PrepareKeeps(t, i, c);
      case Mark(i) => MarkKeeps(t, i);
      case TestAndSet(i) => TestAndSetKeeps(t, i);
      case Schedule(i) => ScheduleKeeps(t, i);
    }
  }

  lemma StepKeeps(t: Tx, act: Act)
    requires Inv(t)
    ensures Inv(Step(t, act))
  {
    match act
    case Begin => BeginKeeps(t);
    case ClearWakeup => ClearWakeupKeeps(t);
    case Pull(mem, room) => PullAct(t, mem, room);
    case ClearSending => ClearSendingKeeps(t);
    case TestWakeup => TestWakeupKeeps(t);
    case _ => CallerKeeps(t, act);
  }

  lemma {:induction false} RunKeeps(t: Tx, acts: seq<Act>)
    requires Inv(t)
    ensures Inv(Run(t, acts))
  {
    if acts != [] {
      RunKeeps(t, acts[..|acts| - 1]);
      StepKeeps(Run(t, acts[..|acts| - 1]), acts[|acts| - 1]);
    }
  }

  /**
   * No wakeup is lost: whenever everybody is done both bits are clear and, with no frame half
   * written, the link was looked at after every caller's change, whatever memory did; and there is
   * something to send exactly if that last look was refused memory.
   */
  lemma NoLostWakeup(useCrc: bool, n: nat, acts: seq<Act>)
    requires Quiet(Run(Fresh(useCrc, n), acts))
    ensures var t := Run(Fresh(useCrc, n), acts);
      && !t.sending && !t.wakeup
      && (t.held == [] ==> !t.due && (CanSend(t.link) <==> t.starved))
  {
    RunKeeps(Fresh(useCrc, n), acts);
  }

  /** However the device cuts the writes up, the line carries whole frames, each once and in order. */
  lemma LineOctets(useCrc: bool, n: nat, acts: seq<Act>)
    ensures var t := Run(Fresh(useCrc, n), acts);
      (forall i :: 0 <= i < |t.taken| ==> Sendable(t.taken[i])) && t.wire + t.held == Flat(t.taken)
  {
    RunKeeps(Fresh(useCrc, n), acts);
  }

  // ----- A device that accepts everything -----

  /** The longest a frame can be on the line. */
  const MAX_FRAME: nat := (MAX_PAYLOAD + 6) * 2 + 2

  /** Memory is always granted and every frame is written in one go. */
  predicate Generous(acts: seq<Act>) {
    forall i :: 0 <= i < |acts| && acts[i].Pull? ==> acts[i].mem == (true, true, true) && acts[i].room >= MAX_FRAME
  }

  lemma EncodeFits(f: Frame)
    requires Sendable(f)
    ensures 0 < |Encode(f)| <= MAX_FRAME
  {
    assert |Content(f)| <= |f.data| + 6;
  }

  lemma GenerousStep(t: Tx, act: Act)
    requires Fits(t.link) && t.held == [] && !t.starved && Generous([act])
    ensures Step(t, act).held == [] && !Step(t, act).starved
  {
    assert [act][0] == act;
    if act.Pull? {
      DequeueFits(t.link, act.mem);
      DequeueSends(t.link, act.mem);
      var f := Dequeue(t.link, act.mem).0;
      if f.Some? {
        EncodeFits(f.value);
      }
    }
  }

  lemma {:induction false} GenerousRun(t: Tx, acts: seq<Act>)
    requires Fits(t.link) && t.held == [] && !t.starved && Generous(acts)
    ensures Run(t, acts).held == [] && !Run(t, acts).starved
  {
    if acts != [] {
      GenerousRun(t, acts[..|acts| - 1]);
      GenerousStep(Run(t, acts[..|acts| - 1]), acts[|acts| - 1]);
    }
  }

  /** With such a device, whenever everybody is done nothing is left to send. */
  lemma Drained(useCrc: bool, n: nat, acts: seq<Act>)
    requires Generous(acts) && Quiet(Run(Fresh(useCrc, n), acts))
    ensures var t := Run(Fresh(useCrc, n), acts);
      && !t.sending && !t.wakeup && !CanSend(t.link)
      && (forall i :: 0 <= i < |t.taken| ==> Sendable(t.taken[i])) && t.wire == Flat(t.taken)
  {
    NoLostWakeup(useCrc, n, acts);
    LineOctets(useCrc, n, acts);
    GenerousRun(Fresh(useCrc, n), acts);
    var w := Run(Fresh(useCrc, n), acts).wire;
    assert w + [] == w;
  }
}
