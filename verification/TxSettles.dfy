/** Everything can always be sent: from every reachable state of the scheduler some continuation leaves nothing to do. */
module TxSettles {
  import opened Bytes
  import opened H5Link
  import opened H5Codec
  import opened TxSched

  lemma RunOne(t: Tx, acts: seq<Act>, act: Act)
    requires Fits(t.link)
    ensures Run(t, acts + [act]) == Step(Run(t, acts), act)
  {
    assert (acts + [act])[..|acts|] == acts;
  }

  lemma RunFirst(t: Tx, act: Act)
    requires Fits(t.link)
    ensures Run(t, [act]) == Step(t, act)
  {
    RunOne(t, [], act);
    assert [] + [act] == [act];
  }

  lemma Peeled(a: seq<Act>, b: seq<Act>, front: seq<Act>, last: Act)
    requires b != [] && front == b[..|b| - 1] && last == b[|b| - 1]
    ensures b == front + [last] && a + b == (a + front) + [last]
  {}

  lemma {:induction false} RunConcat(t: Tx, a: seq<Act>, b: seq<Act>)
    requires Fits(t.link)
    ensures Run(t, a + b) == Run(Run(t, a), b)
  {
    if b == [] {
      assert a + b == a;
    } else {
      var front, last := b[..|b| - 1], b[|b| - 1];
      RunConcat(t, a, front);
      Peeled(a, b, front, last);
      RunOne(t, a + front, last);
      RunOne(Run(t, a), front, last);
    }
  }

  // ----- Callers go -----

  /** What the three steps of a call come to, each of which does nothing where it is not due. */
  lemma CallSteps(t: Tx, i: nat, a: Tx, b: Tx, c: Tx)
    requires i < |t.callers| && !t.callers[i].Busy? && a == MarkStep(t, i) && |a.callers| == |t.callers| && b == TestAndSetStep(a, i)
    requires |b.callers| == |t.callers| && c == ScheduleStep(b, i)
    ensures c.callers == t.callers[i := Away] && c.worker == t.worker && c.link == t.link && c.held == t.held
    ensures t.callers[i] == Armed ==> c.wakeup && c.sending && (c.queued || t.sending)
  {
    var ws := t.callers;
    assert ws[i := Marked][i := Away] == ws[i := Away] && ws[i := Marked][i := Won][i := Away] == ws[i := Away];
    assert ws[i := Won][i := Away] == ws[i := Away];
    assert ws[i] == Away ==> ws[i := Away] == ws;
  }

  lemma CallDone(t: Tx, i: nat) returns (acts: seq<Act>)
    requires Fits(t.link) && i < |t.callers| && !t.callers[i].Busy?
    ensures var u := Run(t, acts); u.callers == t.callers[i := Away] && u.worker == t.worker
    ensures var u := Run(t, acts); t.callers[i] == Armed ==> u.wakeup && u.sending && (u.queued || t.sending)
    ensures Run(t, acts).queued == t.queued || Run(t, acts).queued
  {
    acts := [Mark(i)] + [TestAndSet(i)] + [Schedule(i)];
    RunFirst(t, Mark(i));
    RunOne(t, [Mark(i)], TestAndSet(i));
    RunOne(t, [Mark(i)] + [TestAndSet(i)], Schedule(i));
    var a := MarkStep(t, i);
    var b := TestAndSetStep(a, i);
    CallSteps(t, i, a, b, ScheduleStep(b, i));
  }

  lemma CompleteDone(t: Tx, i: nat, f: Frame)
    requires Fits(t.link) && i < |t.callers| && t.callers[i] == Busy(f)
    ensures var u := Step(t, Prepare(i, Complete(f)));
      Fits(u.link) && !u.callers[i].Busy? && u.worker == t.worker && |u.callers| == |t.callers| && u.callers[i := Away] == t.callers[i := Away]
  {
    StepFits(t, Prepare(i, Complete(f)));
  }

  lemma CallerDone(t: Tx, i: nat) returns (acts: seq<Act>)
    requires Fits(t.link) && i < |t.callers|
    ensures var u := Run(t, acts); u.callers == t.callers[i := Away] && u.worker == t.worker
  {
    if t.callers[i].Busy? {
      var act := Prepare(i, Complete(t.callers[i].f));
      RunFirst(t, act);
      CompleteDone(t, i, t.callers[i].f);
      var rest := CallDone(Step(t, act), i);
      RunConcat(t, [act], rest);
      acts := [act] + rest;
    } else {
      acts := CallDone(t, i);
    }
  }

  predicate AllAway(ws: seq<Caller>) {
    forall i :: 0 <= i < |ws| ==> ws[i] == Away
  }

  lemma {:induction false} CallersDone(t: Tx, n: nat) returns (acts: seq<Act>)
    requires Fits(t.link) && n <= |t.callers| && AllAway(t.callers[..n])
    ensures var u := Run(t, acts); AllAway(u.callers) && |u.callers| == |t.callers| && u.worker == t.worker
    decreases |t.callers| - n
  {
    if n == |t.callers| {
      acts := [];
      assert t.callers[..n] == t.callers;
    } else {
      var one := CallerDone(t, n);
      var u := Run(t, one);
      NextAway(t.callers, u.callers, n);
      var rest := CallersDone(u, n + 1);
      RunConcat(t, one, rest);
      acts := one + rest;
    }
  }

  lemma NextAway(ws: seq<Caller>, us: seq<Caller>, n: nat)
    requires n < |ws| && AllAway(ws[..n]) && us == ws[n := Away]
    ensures AllAway(us[..n + 1])
  {
    assert us[..n + 1] == ws[..n] + [Away];
  }

  // ----- The worker drains the link -----

  /** With memory and room enough a pull takes something or there is nothing. */
  lemma OnePull(t: Tx, room: nat)
    requires Fits(t.link) && room >= MAX_FRAME && room >= |t.held|
    ensures var u := PullStep(t, (true, true, true), room);
      && Fits(u.link) && u.held == [] && u.callers == t.callers && u.wakeup == t.wakeup && u.queued == t.queued
      && if u.worker == Draining then Left(u.link, []) < Left(t.link, t.held) else u.worker == Stopping && !CanSend(u.link)
  {
    TakenFits(t, room);
    PullSame(t, (true, true, true), room);
  }

  /** What is taken fits into the room, and if there is nothing the link has nothing. */
  lemma TakenFits(t: Tx, room: nat)
    requires Fits(t.link) && room >= MAX_FRAME && room >= |t.held|
    ensures var (skb, u) := Taken(t, (true, true, true));
      && |skb| <= room && Left(u.link, []) <= Left(t.link, t.held)
      && (skb == [] ==> !CanSend(u.link)) && (skb != [] ==> Left(u.link, []) < Left(t.link, t.held))
  {
    var all := (true, true, true);
    DequeueFits(t.link, all);
    DequeueSends(t.link, all);
    var f := Dequeue(t.link, all).0;
    if t.held == [] && f.Some? {
      EncodeFits(f.value);
      EncodeNotEmpty(f.value);
    }
  }

  lemma {:induction false} DrainsDry(t: Tx) returns (acts: seq<Act>)
    requires Fits(t.link) && t.worker == Draining
    ensures var u := Run(t, acts);
      u.worker == Stopping && u.held == [] && !CanSend(u.link) && u.callers == t.callers && u.wakeup == t.wakeup && u.queued == t.queued
    decreases Left(t.link, t.held)
  {
    var room := MAX_FRAME + |t.held|;
    var act := Pull((true, true, true), room);
    RunFirst(t, act);
    OnePull(t, room);
    var u := Step(t, act);
    if u.worker == Draining {
      var rest := DrainsDry(u);
      RunConcat(t, [act], rest);
      acts := [act] + rest;
    } else {
      acts := [act];
    }
  }

  /** The end of a round with nobody calling. */
  lemma RoundEnds(t: Tx) returns (acts: seq<Act>)
    requires Fits(t.link) && t.worker == Stopping && !t.wakeup
    ensures var u := Run(t, acts);
      u.worker == Asleep && !u.wakeup && u.callers == t.callers && u.queued == t.queued && u.held == t.held && u.link == t.link
  {
    acts := [ClearSending] + [TestWakeup];
    RunFirst(t, ClearSending);
    RunOne(t, [ClearSending], TestWakeup);
  }

  lemma WholeRound(t: Tx) returns (acts: seq<Act>)
    requires Fits(t.link) && t.worker == AtRestart
    ensures var u := Run(t, acts);
      u.worker == Asleep && !u.wakeup && u.callers == t.callers && u.queued == t.queued && u.held == [] && !CanSend(u.link)
  {
    RunFirst(t, ClearWakeup);
    var t1 := Step(t, ClearWakeup);
    var two := DrainsDry(t1);
    var t2 := Run(t1, two);
    var three := RoundEnds(t2);
    RunConcat(t1, two, three);
    RunConcat(t, [ClearWakeup], two + three);
    acts := [ClearWakeup] + (two + three);
  }

  /** From wherever the worker is. */
  lemma ToSleep(t: Tx) returns (acts: seq<Act>)
    requires Fits(t.link)
    ensures var u := Run(t, acts); u.worker == Asleep && u.callers == t.callers
    decreases match t.worker case Asleep => 0 case AtRestart => 1 case Testing => 2 case Stopping => 3 case Draining => 4
  {
    match t.worker {
      case Asleep => acts := [];
      case AtRestart => acts := WholeRound(t);
      case Testing => acts := StepThenSleep(t, TestWakeup);
      case Stopping => acts := StepThenSleep(t, ClearSending);
      case Draining =>
        var one := DrainsDry(t);
        var rest := ToSleep(Run(t, one));
        RunConcat(t, one, rest);
        acts := one + rest;
    }
  }

  lemma StepThenSleep(t: Tx, act: Act) returns (acts: seq<Act>)
    requires Fits(t.link) && ((t.worker == Testing && act == TestWakeup) || (t.worker == Stopping && act == ClearSending))
    ensures var u := Run(t, acts); u.worker == Asleep && u.callers == t.callers
    decreases if t.worker == Testing then 2 else 3, 0
  {
    RunFirst(t, act);
    var rest := ToSleep(Step(t, act));
    RunConcat(t, [act], rest);
    acts := [act] + rest;
  }

  /** A pending run, with everybody away. */
  lemma PendingRun(t: Tx) returns (acts: seq<Act>)
    requires Fits(t.link) && t.worker == Asleep && t.queued && AllAway(t.callers)
    ensures var u := Run(t, acts); Quiet(u) && u.held == [] && !CanSend(u.link)
  {
    RunFirst(t, Begin);
    var rest := WholeRound(Step(t, Begin));
    RunConcat(t, [Begin], rest);
    acts := [Begin] + rest;
  }

  lemma DeviceCalls(t: Tx, u: Tx)
    requires Fits(t.link) && AllAway(t.callers) && t.callers != [] && u == Step(t, Prepare(0, Nothing))
    ensures u.callers == t.callers[0 := Armed] && u.worker == t.worker && u.sending == t.sending && u.queued == t.queued && u.link == t.link
  {}

  lemma BackAway(ws: seq<Caller>, w: Caller)
    requires ws != [] && AllAway(ws)
    ensures ws[0 := w][0 := Away] == ws
  {}

  /** One more call by the serial device, and the round it causes. */
  lemma LastCall(t: Tx) returns (acts: seq<Act>)
    requires TxSched.Inv(t) && t.worker == Asleep && AllAway(t.callers) && t.callers != []
    ensures var u := Run(t, acts); Quiet(u) && u.held == [] && !CanSend(u.link)
  {
    var act := Prepare(0, Nothing);
    var t1 := Step(t, act);
    RunFirst(t, act);
    DeviceCalls(t, t1);
    SendingQueued(t);
    var two := CallDone(t1, 0);
    var t2 := Run(t1, two);
    BackAway(t.callers, Armed);
    var three := PendingRun(t2);
    var rest := two + three;
    RunConcat(t1, two, three);
    RunConcat(t, [act], rest);
    acts := [act] + rest;
  }

  /** Asleep, with everybody away, the sending bit is set only if a run is pending. */
  lemma SendingQueued(t: Tx)
    requires TxSched.Inv(t) && t.worker == Asleep && AllAway(t.callers)
    ensures t.sending ==> t.queued
  {}

  /**
   * From every reachable state, with at least one who can call, some continuation ends with nobody
   * inside a call, no work pending or running, nothing left to send and no frame half written.
   */
  lemma AllSent(useCrc: bool, n: nat, acts: seq<Act>) returns (more: seq<Act>)
    requires n > 0
    ensures var t := Run(Fresh(useCrc, n), acts + more); Quiet(t) && t.held == [] && !CanSend(t.link)
  {
    var start := Fresh(useCrc, n);
    var t := Run(start, acts);
    CallersKept(start, acts);
    assert t.callers[..0] == [];
    var one := CallersDone(t, 0);
    var t1 := Run(t, one);
    var two := ToSleep(t1);
    var t2 := Run(t1, two);
    RunConcat(t, one, two);
    RunConcat(start, acts, one + two);
    RunKeeps(start, acts + (one + two));
    var three := LastCall(t2);
    RunConcat(t, one + two, three);
    more := one + two + three;
    RunConcat(start, acts, more);
  }

  lemma StepCallers(t: Tx, act: Act)
    requires Fits(t.link)
    ensures |Step(t, act).callers| == |t.callers|
  {
    if act.Pull? {
      PullSame(t, act.mem, act.room);
    } else if act.Prepare? && act.i < |t.callers| {
      PrepareCallers(t, act.i, act.c);
    }
  }

  lemma PrepareCallers(t: Tx, i: nat, c: Change)
    requires i < |t.callers|
    ensures |PrepareStep(t, i, c).callers| == |t.callers|
  {}

  lemma {:induction false} CallersKept(t: Tx, acts: seq<Act>)
    requires Fits(t.link)
    ensures |Run(t, acts).callers| == |t.callers|
  {
    if acts != [] {
      var u, act := Run(t, acts[..|acts| - 1]), acts[|acts| - 1];
      CallersKept(t, acts[..|acts| - 1]);
      StepCallers(u, act);
    }
  }
}
