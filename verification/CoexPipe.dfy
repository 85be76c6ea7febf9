/** The event pipe with the coexistence handlers at its end. */
module CoexPipe {
  import opened Bytes
  import opened Coex
  import opened CoexEvents
  import opened EventPipe
  import opened Reassembly
  import CoexRun

  type Op = CoexRun.Op

  function ApplyTo(s: State, m: Msg, mem: bool): State {
    if Sane(s) then Apply(s, m, mem) else s
  }

  function SignalTo(s: State, op: Op): State {
    if Sane(s) then CoexRun.Step(s, op) else s
  }

  predicate Sound(e: seq<Byte>) {
    |e| >= 2 && Settled(e)
  }

  function CoexRules(): Rules<Msg, State, Op> {
    Rules(FilteredOut, Decode, ApplyTo, SignalTo, Sound)
  }

  /** Truncation to 32 octets and stale octets behind a shorter event are not seen by the handlers. */
  lemma CoexLocal()
    ensures Local(CoexRules())
  {
    var r := CoexRules();
    forall was: seq<Byte>, e: seq<Byte> | |was| == EventPipe.ROOM && r.sound(e) ensures r.read(Filled(was, e)) == r.read(e) {
      FilledExtends(was, e);
      SettledReads(Filled(was, e), e);
    }
  }

  lemma IdleEvent(e: seq<Byte>, s: State, mem: bool)
    requires Sound(e) && Droppable(CoexRules(), e)
    ensures ApplyTo(s, Decode(e), mem) == s
  {
    var r := CoexRules();
    var stale: seq<Byte> :| r.drop(e + stale);
    FilterLosesNothing(e, stale);
  }

  lemma CoexDropsOnlyIdle()
    ensures DropsOnlyIdle(CoexRules())
  {
    var r := CoexRules();
    forall e: seq<Byte>, s: State, mem: bool | r.sound(e) && Droppable(r, e) ensures r.apply(s, r.read(e), mem) == s {
      IdleEvent(e, s, mem);
    }
  }

  /** A log as operations of the coexistence module, each carried out as soon as it is there. */
  function OpsOf(log: seq<Done<Op>>): seq<Op> {
    if log == [] then [] else
      var d := log[|log| - 1];
      OpsOf(log[..|log| - 1]) + [if d.Ev? then CoexRun.Event(Decode(d.e), d.mem) else d.x]
  }

  lemma {:induction false} PlayIsDirect(s: State, log: seq<Done<Op>>)
    requires Sane(s)
    ensures Play(CoexRules(), s, log) == CoexRun.Run(s, OpsOf(log))
  {
    if log != [] {
      var front := log[..|log| - 1];
      PlayIsDirect(s, front);
      assert OpsOf(log)[..|OpsOf(log)| - 1] == OpsOf(front);
    }
  }

  /**
   * The state is the one that direct handling of all events of the stream gives, with the L2CAP
   * packets in between at the places where they came; and if no profile counter is ever at its end
   * when one more use is counted, the profile bits tell which counters are not zero.
   */
  ghost predicate Direct(p: Pipe<State, Op>) {
    && |p.passed| == |Events(p.stream)|
    && var all := Weave(Events(p.stream), p.passed, p.log);
      && EventsOf(all) == Events(p.stream) && SignalsOf(all) == SignalsOf(p.log)
      && p.state == CoexRun.Run(Start, OpsOf(all))
      && (CoexRun.NeverWraps(OpsOf(all)) ==> CoexRun.Inv(p.state))
  }

  lemma RestIsDirect(p: Pipe<State, Op>)
    requires Inv(CoexRules(), Start, p) && Quiet(p) && !p.dry && AllSound(CoexRules(), Events(p.stream))
    ensures Direct(p)
  {
    CoexDropsOnlyIdle();
    AtRest(CoexRules(), Start, p);
    var all := Weave(Events(p.stream), p.passed, p.log);
    PlayIsDirect(Start, all);
    var ops := OpsOf(all);
    if CoexRun.NeverWraps(ops) {
      CoexRun.KeptUpTo(ops, |ops|);
      assert ops[..|ops|] == ops;
    }
  }

  /**
   * Whether or not a buffer was missing: the state is the one that direct handling of the events that
   * passed gives, with the L2CAP packets in between; unless one was missing, only filtered events did
   * not pass.
   */
  ghost predicate Handled(p: Pipe<State, Op>) {
    && p.seen == Events(p.stream) && |p.passed| == |p.seen|
    && EventsOf(p.log) == Select(p.seen, p.passed) && p.state == CoexRun.Run(Start, OpsOf(p.log))
    && (!p.dry ==> Justified(CoexRules(), p.seen, p.passed))
  }

  lemma RestIsHandled(p: Pipe<State, Op>)
    requires Inv(CoexRules(), Start, p) && Quiet(p) && AllSound(CoexRules(), Events(p.stream))
    ensures Handled(p)
  {
    assert p.seen + [] == p.seen;
    assert p.kept[..p.done] == p.kept;
    PlayIsDirect(Start, p.log);
  }

  /**
   * For every chunking of a stream of settled events and every interleaving of the receiver, the
   * worker and the L2CAP packets: at rest, if a buffer was never missing, the state is that of
   * direct handling.
   */
  lemma PipeIsDirect(free: seq<nat>, junk: seq<seq<Byte>>, acts: seq<Act<Op>>)
    requires Buffers(junk) && EachOnce(multiset(free), NODES) && Ready<State, Op>(Opened(Start, free, junk))
    requires var p := Run(CoexRules(), Opened(Start, free, junk), acts);
      Quiet(p) && !p.dry && AllSound(CoexRules(), Events(p.stream))
    ensures Direct(Run(CoexRules(), Opened(Start, free, junk), acts))
  {
    CoexLocal();
    OpenedOk(CoexRules(), Start, free, junk);
    RunKeeps(CoexRules(), Start, Opened(Start, free, junk), acts);
    RestIsDirect(Run(CoexRules(), Opened(Start, free, junk), acts));
  }

  // ----- Stale octets at the end of the pipe -----

  /** A Connection Complete event of no parameters: its handler reads what the buffer held before. */
  const SHORT: seq<Byte> := [EV_CONN_COMPLETE, 0]

  /** All buffers free, each holding the same. */
  function OpenedOver(was: seq<Byte>): Pipe<State, Op> {
    Opened(Start, Numbers(NODES), seq(NODES, i => was))
  }

  lemma ShortRun(was: seq<Byte>)
    requires |was| == EventPipe.ROOM
    ensures Ready(OpenedOver(was))
    ensures var p := Run(CoexRules(), OpenedOver(was), OneEvent(SHORT));
      Quiet(p) && !p.dry && p.stream == SHORT && p.state == ApplyTo(Start, Decode(Filled(was, SHORT)), true)
  {
    assert SHORT[..2] == SHORT && SHORT[2..] == [];
    assert [] + SHORT == SHORT;
    SingleEvent(CoexRules(), OpenedOver(was), SHORT);
  }

  lemma ShortState(was: seq<Byte>, link: Byte)
    requires |was| == EventPipe.ROOM && was == Zeros()[11 := link]
    ensures ApplyTo(Start, Decode(Filled(was, SHORT)), true).conns == [Begun(0, if link == 0 || link == 2 then 1 else 0)]
  {
    var d := Filled(was, SHORT);
    assert At(d, 0) == EV_CONN_COMPLETE && At(d, 2) == 0 && At(d, 11) == link && Word(d, 3) == 0;
    assert [] + [Begun(0, if link == 0 || link == 2 then 1 else 0)] == [Begun(0, if link == 0 || link == 2 then 1 else 0)];
  }

  /** Two runs on one stream that differ only in what the buffers held before end in different states. */
  lemma StaleOctetsMatter() returns (x: seq<Byte>, y: seq<Byte>, acts: seq<Act<Op>>)
    ensures |x| == |y| == EventPipe.ROOM && Ready(OpenedOver(x)) && Ready(OpenedOver(y))
    ensures var p, q := Run(CoexRules(), OpenedOver(x), acts), Run(CoexRules(), OpenedOver(y), acts);
      Quiet(p) && Quiet(q) && !p.dry && !q.dry && p.stream == q.stream && p.state.conns != q.state.conns
  {
    x, y, acts := Zeros()[11 := 0], Zeros()[11 := 1], OneEvent(SHORT);
    ShortRun(x);
    ShortRun(y);
    ShortState(x, 0);
    ShortState(y, 1);
    assert Begun(0, 1).kind != Begun(0, 0).kind;
  }
}
