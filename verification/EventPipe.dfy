/**
 * The way of an event from the receiver to the worker: the filter, 32 buffers that travel between a
 * free and a used list, and the handler, with signals changing the state in between. Every
 * interleaving of the sides is a run. What is read out of an event and what it does are given as
 * `Rules`.
 */
module EventPipe {
  import opened Bytes
  import opened Reassembly

  const NODES: nat := 32
  const ROOM: nat := 32

  /**
   * `drop` is the filter, `read` what the handler reads, `apply` what it does, `signal` what happens
   * to the state besides, and `sound` which events count.
   */
  datatype Rules<!M, !S, !X> = Rules(
    drop: seq<Byte> -> bool, read: seq<Byte> -> M, apply: (S, M, bool) -> S, signal: (S, X) -> S, sound: seq<Byte> -> bool)

  /** A sound event is read alike whatever was in the buffer before. */
  ghost predicate Local<M, S, X>(r: Rules<M, S, X>) {
    forall was: seq<Byte>, e: seq<Byte> :: |was| == ROOM && r.sound(e) ==> r.read(Filled(was, e)) == r.read(e)
  }

  /** What was done to the state: an event handled, with its memory answer, or a signal. */
  datatype Done<X> = Ev(e: seq<Byte>, mem: bool) | Sig(x: X)

  /**
   * `part` is the event being put together, `todo` whole events not yet looked at; `filling` is a
   * buffer in the receiver's hand with the event meant for it, `handling` one in the worker's hand
   * and whether it was dealt with. History: the stream, the events looked at, which of them passed
   * the filter, those that got a buffer, how many of these were dealt with, what was done in which
   * order, and whether a buffer was ever missing.
   */
  datatype Pipe<S, X> = Pipe(
    part: seq<Byte>, todo: seq<seq<Byte>>,
    free: seq<nat>, used: seq<nat>, filling: Option<(nat, seq<Byte>)>, handling: Option<(nat, bool)>,
    data: seq<seq<Byte>>, state: S,
    stream: seq<Byte>, seen: seq<seq<Byte>>, passed: seq<bool>, kept: seq<seq<Byte>>, done: nat, log: seq<Done<X>>, dry: bool)

  datatype Act<X> = Chunk(s: seq<Byte>) | Look(stale: seq<Byte>) | Hand | Take | Handle(mem: bool) | Release | Signal(x: X)

  /** As many buffers as `n`, each once. */
  function Numbers(n: nat): (r: seq<nat>)
    ensures |r| == n && forall i :: 0 <= i < n ==> r[i] == i
  {
    if n == 0 then [] else Numbers(n - 1) + [n - 1]
  }

  ghost predicate EachOnce(m: multiset<nat>, n: nat) {
    forall k: nat :: m[k] == if k < n then 1 else 0
  }

  lemma OneMore(m: multiset<nat>, n: nat)
    requires EachOnce(m, n)
    ensures EachOnce(m + multiset{n}, n + 1)
  {}

  lemma AppendOnce(s: seq<nat>, n: nat)
    requires EachOnce(multiset(s), n)
    ensures EachOnce(multiset(s + [n]), n + 1)
  {
    assert multiset(s + [n]) == multiset(s) + multiset{n};
    OneMore(multiset(s), n);
  }

  lemma {:induction false} NumbersOnce(n: nat)
    ensures EachOnce(multiset(Numbers(n)), n)
  {
    if n > 0 {
      var last: nat := n - 1;
      NumbersOnce(last);
      AppendOnce(Numbers(last), last);
    }
  }

  /** All buffers are free. What they hold does not matter. */
  function Opened<S, X>(start: S, free: seq<nat>, junk: seq<seq<Byte>>): Pipe<S, X> {
    Pipe([], [], free, [], None, None, junk, start, [], [], [], [], 0, [], false)
  }

  predicate Buffers(data: seq<seq<Byte>>) {
    |data| == NODES && forall i :: 0 <= i < NODES ==> |data[i]| == ROOM
  }

  predicate InRange(s: seq<nat>) {
    forall i :: 0 <= i < |s| ==> s[i] < NODES
  }

  /** What a step needs to make sense. */
  predicate Ready<S, X>(p: Pipe<S, X>) {
    && Buffers(p.data) && InRange(p.free) && InRange(p.used)
    && (p.filling.Some? ==> p.filling.value.0 < NODES) && (p.handling.Some? ==> p.handling.value.0 < NODES)
  }

  // ----- The steps -----

  /** A chunk arrives. */
  function ChunkStep<S, X>(p: Pipe<S, X>, s: seq<Byte>): Pipe<S, X> {
    p.(part := Leftover(p.part + s), todo := Events(p.part + s), stream := p.stream + s)
  }

  /**
   * The next whole event: filtered, or given a free buffer, or lost for want of one. The filter also
   * sees the `stale` octets behind the event.
   */
  function LookStep<M, S, X>(r: Rules<M, S, X>, p: Pipe<S, X>, stale: seq<Byte>): Pipe<S, X>
    requires p.todo != []
  {
    var e := p.todo[0];
    if r.drop(e + stale) then p.(todo := p.todo[1..], seen := p.seen + [e], passed := p.passed + [false])
    else if p.free == [] then p.(todo := p.todo[1..], seen := p.seen + [e], passed := p.passed + [false], dry := true)
    else p.(todo := p.todo[1..], seen := p.seen + [e], passed := p.passed + [true],
            free := p.free[1..], filling := Some((p.free[0], e)), kept := p.kept + [e])
  }

  /** The buffer is filled and queued. */
  function HandStep<S, X>(p: Pipe<S, X>): Pipe<S, X>
    requires Ready(p) && p.filling.Some?
  {
    var (n, e) := p.filling.value;
    p.(filling := None, used := p.used + [n], data := p.data[n := Filled(p.data[n], e)])
  }

  function TakeStep<S, X>(p: Pipe<S, X>): Pipe<S, X>
    requires p.used != []
  {
    p.(used := p.used[1..], handling := Some((p.used[0], false)))
  }

  function HandleStep<M, S, X>(r: Rules<M, S, X>, p: Pipe<S, X>, mem: bool): Pipe<S, X>
    requires Ready(p) && p.handling.Some? && p.done < |p.kept|
  {
    var n := p.handling.value.0;
    p.(handling := Some((n, true)), state := r.apply(p.state, r.read(p.data[n]), mem),
       done := p.done + 1, log := p.log + [Ev(p.kept[p.done], mem)])
  }

  function ReleaseStep<S, X>(p: Pipe<S, X>): Pipe<S, X>
    requires p.handling.Some?
  {
    p.(handling := None, free := p.free + [p.handling.value.0])
  }

  function SignalStep<M, S, X>(r: Rules<M, S, X>, p: Pipe<S, X>, x: X): Pipe<S, X> {
    p.(state := r.signal(p.state, x), log := p.log + [Sig(x)])
  }

  /** A step that is not enabled changes nothing. */
  function Step<M, S, X>(r: Rules<M, S, X>, p: Pipe<S, X>, act: Act<X>): (q: Pipe<S, X>)
    requires Ready(p)
    ensures Ready(q)
  {
    match act
    case Chunk(s) => if p.todo != [] || p.filling.Some? then p else ChunkStep(p, s)
    case Look(stale) => if p.todo == [] || p.filling.Some? then p else LookStep(r, p, stale)
    case Hand => if p.filling.None? then p else HandStep(p)
    case Take => if p.handling.Some? || p.used == [] then p else TakeStep(p)
    case Handle(mem) => if p.handling.None? || p.handling.value.1 || p.done >= |p.kept| then p else HandleStep(r, p, mem)
    case Release => if p.handling.None? || !p.handling.value.1 then p else ReleaseStep(p)
    case Signal(x) => SignalStep(r, p, x)
  }

  function Run<M, S, X>(r: Rules<M, S, X>, p: Pipe<S, X>, acts: seq<Act<X>>): (q: Pipe<S, X>)
    requires Ready(p)
    ensures Ready(q)
  {
    if acts == [] then p else Step(r, Run(r, p, acts[..|acts| - 1]), acts[|acts| - 1])
  }

  // ----- What every reachable state satisfies -----

  /** The buffer in a hand, if any. */
  ghost function Held<T>(h: Option<(nat, T)>): multiset<nat> {
    if h.Some? then multiset{h.value.0} else multiset{}
  }

  ghost function Where<S, X>(p: Pipe<S, X>): multiset<nat> {
    multiset(p.free) + multiset(p.used) + Held(p.filling) + Held(p.handling)
  }

  /** Every buffer is in exactly one place: free, used, or in a hand. */
  ghost predicate Placed<S, X>(p: Pipe<S, X>) {
    EachOnce(Where(p), NODES)
  }

  /** In the worker's hand and not dealt with. */
  function InHand(handling: Option<(nat, bool)>): nat {
    if handling.Some? && !handling.value.1 then 1 else 0
  }

  /** The kept events are those dealt with, in the worker's hand, queued, and in the receiver's hand. */
  predicate Counted(kept: seq<seq<Byte>>, done: nat, hand: nat, used: seq<nat>, filling: Option<(nat, seq<Byte>)>) {
    && |kept| == done + hand + |used| + (if filling.Some? then 1 else 0)
    && (filling.Some? ==> filling.value.1 == kept[|kept| - 1])
  }

  /** The queued buffers hold the events kept from place `first` on, in order. */
  predicate Queued<M(==), S, X>(r: Rules<M, S, X>, data: seq<seq<Byte>>, used: seq<nat>, kept: seq<seq<Byte>>, first: nat)
    requires |data| == NODES && InRange(used) && first + |used| <= |kept|
  {
    forall i :: 0 <= i < |used| ==> r.read(data[used[i]]) == r.read(kept[first + i])
  }

  /** The buffers in the worker's hand and in the queue hold the events in the order they were kept. */
  predicate InOrder<M(==), S, X>(r: Rules<M, S, X>, p: Pipe<S, X>)
    requires Ready(p) && Counted(p.kept, p.done, InHand(p.handling), p.used, p.filling)
  {
    && (InHand(p.handling) == 1 ==> r.read(p.data[p.handling.value.0]) == r.read(p.kept[p.done]))
    && Queued(r, p.data, p.used, p.kept, p.done + InHand(p.handling))
  }

  /** The state after events and signals, each handled directly. */
  function Play<M, S, X>(r: Rules<M, S, X>, s: S, log: seq<Done<X>>): S {
    if log == [] then s else Played(r, Play(r, s, log[..|log| - 1]), log[|log| - 1])
  }

  function Played<M, S, X>(r: Rules<M, S, X>, s: S, d: Done<X>): S {
    match d
    case Ev(e, mem) => r.apply(s, r.read(e), mem)
    case Sig(x) => r.signal(s, x)
  }

  /** The events and the signals of a log. */
  function EventsOf<X>(log: seq<Done<X>>): seq<seq<Byte>> {
    if log == [] then [] else
      var d := log[|log| - 1];
      if d.Ev? then EventsOf(log[..|log| - 1]) + [d.e] else EventsOf(log[..|log| - 1])
  }

  function SignalsOf<X>(log: seq<Done<X>>): seq<X> {
    if log == [] then [] else
      var d := log[|log| - 1];
      if d.Sig? then SignalsOf(log[..|log| - 1]) + [d.x] else SignalsOf(log[..|log| - 1])
  }

  /** The events marked as passed. */
  function Select(es: seq<seq<Byte>>, passed: seq<bool>): seq<seq<Byte>>
    requires |passed| == |es|
  {
    if es == [] then [] else
      var n := |es| - 1;
      if passed[n] then Select(es[..n], passed[..n]) + [es[n]] else Select(es[..n], passed[..n])
  }

  predicate AllSound<M, S, X>(r: Rules<M, S, X>, es: seq<seq<Byte>>) {
    forall i :: 0 <= i < |es| ==> r.sound(es[i])
  }

  /** The filter drops it behind some stale octets. */
  ghost predicate Droppable<M, S, X>(r: Rules<M, S, X>, e: seq<Byte>) {
    exists stale: seq<Byte> :: r.drop(e + stale)
  }

  /** What was looked at and what waits is what the stream holds. */
  predicate Fed(part: seq<Byte>, todo: seq<seq<Byte>>, stream: seq<Byte>, seen: seq<seq<Byte>>) {
    seen + todo == Events(stream) && part == Leftover(stream)
  }

  /** Unless a buffer was missing, what did not pass is what the filter drops. */
  ghost predicate Justified<M, S, X>(r: Rules<M, S, X>, seen: seq<seq<Byte>>, passed: seq<bool>) {
    |passed| == |seen| && forall i :: 0 <= i < |seen| && !passed[i] ==> Droppable(r, seen[i])
  }

  ghost predicate Filtered<M, S, X>(r: Rules<M, S, X>, seen: seq<seq<Byte>>, passed: seq<bool>, kept: seq<seq<Byte>>, dry: bool) {
    && |passed| == |seen| && kept == Select(seen, passed)
    && (!dry ==> Justified(r, seen, passed))
    && (AllSound(r, seen) ==> AllSound(r, kept))
  }

  /** The log holds the kept events dealt with so far, in order. */
  predicate Logged<X>(kept: seq<seq<Byte>>, done: nat, log: seq<Done<X>>) {
    done <= |kept| && EventsOf(log) == kept[..done]
  }

  ghost predicate Inv<M, S, X>(r: Rules<M, S, X>, start: S, p: Pipe<S, X>) {
    && Ready(p) && Placed(p) && Counted(p.kept, p.done, InHand(p.handling), p.used, p.filling)
    && Fed(p.part, p.todo, p.stream, p.seen) && Filtered(r, p.seen, p.passed, p.kept, p.dry) && Logged(p.kept, p.done, p.log)
    && (AllSound(r, p.seen) ==> InOrder(r, p) && p.state == Play(r, start, p.log))
  }

  // ----- Chunks -----

  lemma ChunkFed(part: seq<Byte>, stream: seq<Byte>, seen: seq<seq<Byte>>, s: seq<Byte>)
    requires Fed(part, [], stream, seen)
    ensures Fed(Leftover(part + s), Events(part + s), stream + s, seen)
  {
    CutAnywhere(stream, s);
    assert seen + [] == seen;
  }

  lemma ChunkKeeps<M, S, X>(r: Rules<M, S, X>, start: S, p: Pipe<S, X>, s: seq<Byte>)
    requires Inv(r, start, p) && p.todo == [] && p.filling.None?
    ensures Inv(r, start, ChunkStep(p, s))
  {
    ChunkFed(p.part, p.stream, p.seen, s);
    assert Where(ChunkStep(p, s)) == Where(p);
  }

  // ----- Looking -----

  lemma SelectOne(es: seq<seq<Byte>>, passed: seq<bool>, e: seq<Byte>, b: bool)
    requires |passed| == |es|
    ensures Select(es + [e], passed + [b]) == if b then Select(es, passed) + [e] else Select(es, passed)
  {
    assert (es + [e])[..|es|] == es && (passed + [b])[..|es|] == passed;
  }

  lemma SoundFront<M, S, X>(r: Rules<M, S, X>, es: seq<seq<Byte>>, e: seq<Byte>)
    requires AllSound(r, es + [e])
    ensures AllSound(r, es) && r.sound(e)
  {
    assert (es + [e])[|es|] == e;
    forall i | 0 <= i < |es| ensures r.sound(es[i]) {
      assert (es + [e])[i] == es[i];
    }
  }

  lemma JustifiedOne<M, S, X>(r: Rules<M, S, X>, seen: seq<seq<Byte>>, passed: seq<bool>, e: seq<Byte>, b: bool)
    requires Justified(r, seen, passed) && (!b ==> Droppable(r, e))
    ensures Justified(r, seen + [e], passed + [b])
  {}

  lemma FilteredOne<M, S, X>(r: Rules<M, S, X>, seen: seq<seq<Byte>>, passed: seq<bool>, kept: seq<seq<Byte>>, dry: bool,
                             e: seq<Byte>, b: bool, kept': seq<seq<Byte>>, dry': bool)
    requires Filtered(r, seen, passed, kept, dry) && kept' == (if b then kept + [e] else kept)
    requires !dry' ==> !dry && (!b ==> Droppable(r, e))
    ensures Filtered(r, seen + [e], passed + [b], kept', dry')
  {
    SelectOne(seen, passed, e, b);
    if !dry' {
      JustifiedOne(r, seen, passed, e, b);
    }
    if AllSound(r, seen + [e]) {
      SoundFront(r, seen, e);
    }
  }

  lemma FedOne(part: seq<Byte>, todo: seq<seq<Byte>>, stream: seq<Byte>, seen: seq<seq<Byte>>)
    requires Fed(part, todo, stream, seen) && todo != []
    ensures Fed(part, todo[1..], stream, seen + [todo[0]])
  {
    assert seen + [todo[0]] + todo[1..] == seen + todo;
  }

  lemma LoggedMore<X>(kept: seq<seq<Byte>>, done: nat, log: seq<Done<X>>, e: seq<Byte>)
    requires Logged(kept, done, log)
    ensures Logged(kept + [e], done, log)
  {
    assert (kept + [e])[..done] == kept[..done];
  }

  lemma FirstOff(s: seq<nat>)
    requires s != []
    ensures multiset(s) == multiset{s[0]} + multiset(s[1..])
  {
    assert s == [s[0]] + s[1..];
  }

  lemma PickUp(f: multiset<nat>, n: nat, u: multiset<nat>, h: multiset<nat>)
    ensures (multiset{n} + f) + u + multiset{} + h == f + u + multiset{n} + h
  {}

  lemma LookWhere<M, S, X>(r: Rules<M, S, X>, p: Pipe<S, X>, stale: seq<Byte>)
    requires p.todo != [] && p.filling.None?
    ensures Where(LookStep(r, p, stale)) == Where(p)
  {
    if !r.drop(p.todo[0] + stale) && p.free != [] {
      FirstOff(p.free);
      PickUp(multiset(p.free[1..]), p.free[0], multiset(p.used), Held(p.handling));
    }
  }

  lemma LookFiltered<M, S, X>(r: Rules<M, S, X>, p: Pipe<S, X>, stale: seq<Byte>)
    requires Filtered(r, p.seen, p.passed, p.kept, p.dry) && Logged(p.kept, p.done, p.log) && p.todo != []
    ensures var q := LookStep(r, p, stale);
      Filtered(r, q.seen, q.passed, q.kept, q.dry) && Logged(q.kept, q.done, q.log)
  {
    var e := p.todo[0];
    if r.drop(e + stale) {
      FilteredOne(r, p.seen, p.passed, p.kept, p.dry, e, false, p.kept, p.dry);
    } else if p.free == [] {
      FilteredOne(r, p.seen, p.passed, p.kept, p.dry, e, false, p.kept, true);
    } else {
      FilteredOne(r, p.seen, p.passed, p.kept, p.dry, e, true, p.kept + [e], p.dry);
      LoggedMore(p.kept, p.done, p.log, e);
    }
  }

  lemma QueuedMore<M, S, X>(r: Rules<M, S, X>, data: seq<seq<Byte>>, used: seq<nat>, kept: seq<seq<Byte>>, first: nat, e: seq<Byte>)
    requires |data| == NODES && InRange(used) && first + |used| <= |kept| && Queued(r, data, used, kept, first)
    ensures Queued(r, data, used, kept + [e], first)
  {}

  lemma LookReady<M, S, X>(r: Rules<M, S, X>, p: Pipe<S, X>, stale: seq<Byte>)
    requires Ready(p) && Counted(p.kept, p.done, InHand(p.handling), p.used, p.filling) && p.todo != [] && p.filling.None?
    ensures var q := LookStep(r, p, stale); Ready(q) && Counted(q.kept, q.done, InHand(q.handling), q.used, q.filling)
  {}

  lemma LookOrder<M, S, X>(r: Rules<M, S, X>, p: Pipe<S, X>, q: Pipe<S, X>, e: seq<Byte>)
    requires Ready(p) && Counted(p.kept, p.done, InHand(p.handling), p.used, p.filling) && InOrder(r, p)
    requires Ready(q) && Counted(q.kept, q.done, InHand(q.handling), q.used, q.filling)
    requires q.data == p.data && q.used == p.used && q.handling == p.handling && q.done == p.done
    requires q.kept == p.kept || q.kept == p.kept + [e]
    ensures InOrder(r, q)
  {
    QueuedMore(r, p.data, p.used, p.kept, p.done + InHand(p.handling), e);
  }

  lemma LookKeeps<M, S, X>(r: Rules<M, S, X>, start: S, p: Pipe<S, X>, stale: seq<Byte>)
    requires Inv(r, start, p) && p.todo != [] && p.filling.None?
    ensures Inv(r, start, LookStep(r, p, stale))
  {
    var q := LookStep(r, p, stale);
    LookReady(r, p, stale);
    FedOne(p.part, p.todo, p.stream, p.seen);
    LookFiltered(r, p, stale);
    LookWhere(r, p, stale);
    if AllSound(r, q.seen) {
      SoundFront(r, p.seen, p.todo[0]);
      LookOrder(r, p, q, p.todo[0]);
    }
  }

  // ----- Handing over -----

  /** The buffer in the receiver's hand is nowhere else. */
  lemma OnlyInHand<S, X>(p: Pipe<S, X>)
    requires Placed(p) && p.filling.Some?
    ensures forall i :: 0 <= i < |p.used| ==> p.used[i] != p.filling.value.0
    ensures p.handling.Some? ==> p.handling.value.0 != p.filling.value.0
  {
    var n := p.filling.value.0;
    assert Where(p)[n] <= 1;
    assert n in multiset(p.used) <==> n in p.used;
  }

  lemma HandWhere<S, X>(p: Pipe<S, X>)
    requires Ready(p) && p.filling.Some?
    ensures Where(HandStep(p)) == Where(p)
  {}

  lemma QueuedLast<M, S, X>(r: Rules<M, S, X>, data: seq<seq<Byte>>, used: seq<nat>, kept: seq<seq<Byte>>, first: nat, n: nat, d: seq<Byte>)
    requires |data| == NODES && InRange(used) && n < NODES && first + |used| + 1 == |kept| && Queued(r, data, used, kept, first)
    requires (forall i :: 0 <= i < |used| ==> used[i] != n) && r.read(d) == r.read(kept[|kept| - 1])
    ensures Queued(r, data[n := d], used + [n], kept, first)
  {}

  lemma HandOrder<M, S, X>(r: Rules<M, S, X>, p: Pipe<S, X>, n: nat, e: seq<Byte>, full: seq<Byte>)
    requires Ready(p) && Placed(p) && Counted(p.kept, p.done, InHand(p.handling), p.used, p.filling)
    requires InOrder(r, p) && p.filling == Some((n, e)) && full == Filled(p.data[n], e) && r.read(full) == r.read(e)
    ensures var q := HandStep(p);
      Ready(q) && Counted(q.kept, q.done, InHand(q.handling), q.used, q.filling) && InOrder(r, q)
  {
    OnlyInHand(p);
    QueuedLast(r, p.data, p.used, p.kept, p.done + InHand(p.handling), n, full);
  }

  lemma HandKeeps<M, S, X>(r: Rules<M, S, X>, start: S, p: Pipe<S, X>)
    requires Inv(r, start, p) && p.filling.Some? && Local(r)
    ensures Inv(r, start, HandStep(p))
  {
    HandWhere(p);
    if AllSound(r, p.seen) {
      var n, e := p.filling.value.0, p.filling.value.1;
      assert r.sound(p.kept[|p.kept| - 1]);
      assert r.read(Filled(p.data[n], e)) == r.read(e);
      HandOrder(r, p, n, e, Filled(p.data[n], e));
    }
  }

  // ----- Working -----

  lemma TakeWhere<S, X>(p: Pipe<S, X>)
    requires p.handling.None? && p.used != []
    ensures Where(TakeStep(p)) == Where(p)
  {
    FirstOff(p.used);
  }

  lemma QueuedRest<M, S, X>(r: Rules<M, S, X>, data: seq<seq<Byte>>, used: seq<nat>, kept: seq<seq<Byte>>, first: nat)
    requires |data| == NODES && InRange(used) && used != [] && first + |used| <= |kept| && Queued(r, data, used, kept, first)
    ensures r.read(data[used[0]]) == r.read(kept[first]) && Queued(r, data, used[1..], kept, first + 1)
  {
    forall i | 0 <= i < |used| - 1 ensures r.read(data[used[1..][i]]) == r.read(kept[first + 1 + i]) {
      assert used[1..][i] == used[i + 1];
    }
  }

  lemma TakeKeeps<M, S, X>(r: Rules<M, S, X>, start: S, p: Pipe<S, X>)
    requires Inv(r, start, p) && p.handling.None? && p.used != []
    ensures Inv(r, start, TakeStep(p))
  {
    TakeWhere(p);
    if AllSound(r, p.seen) {
      QueuedRest(r, p.data, p.used, p.kept, p.done);
    }
  }

  lemma PlayOne<M, S, X>(r: Rules<M, S, X>, s: S, log: seq<Done<X>>, d: Done<X>)
    ensures Play(r, s, log + [d]) == Played(r, Play(r, s, log), d)
  {
    assert (log + [d])[..|log|] == log;
  }

  lemma EventsOne<X>(log: seq<Done<X>>, d: Done<X>)
    ensures EventsOf(log + [d]) == if d.Ev? then EventsOf(log) + [d.e] else EventsOf(log)
    ensures SignalsOf(log + [d]) == if d.Sig? then SignalsOf(log) + [d.x] else SignalsOf(log)
  {
    assert (log + [d])[..|log|] == log;
  }

  lemma LoggedOne<X>(kept: seq<seq<Byte>>, done: nat, log: seq<Done<X>>, mem: bool)
    requires Logged(kept, done, log) && done < |kept|
    ensures Logged(kept, done + 1, log + [Ev(kept[done], mem)])
  {
    EventsOne(log, Ev(kept[done], mem));
    assert kept[..done + 1] == kept[..done] + [kept[done]];
  }

  lemma HandleKeeps<M, S, X>(r: Rules<M, S, X>, start: S, p: Pipe<S, X>, mem: bool)
    requires Inv(r, start, p) && p.handling.Some? && !p.handling.value.1
    ensures p.done < |p.kept| && Inv(r, start, HandleStep(r, p, mem))
  {
    LoggedOne(p.kept, p.done, p.log, mem);
    assert Where(HandleStep(r, p, mem)) == Where(p);
    if AllSound(r, p.seen) {
      PlayOne(r, start, p.log, Ev(p.kept[p.done], mem));
    }
  }

  lemma ReleaseWhere<S, X>(p: Pipe<S, X>)
    requires p.handling.Some?
    ensures Where(ReleaseStep(p)) == Where(p)
  {}

  lemma ReleaseKeeps<M, S, X>(r: Rules<M, S, X>, start: S, p: Pipe<S, X>)
    requires Inv(r, start, p) && p.handling.Some? && p.handling.value.1
    ensures Inv(r, start, ReleaseStep(p))
  {
    ReleaseWhere(p);
  }

  lemma SignalKeeps<M, S, X>(r: Rules<M, S, X>, start: S, p: Pipe<S, X>, x: X)
    requires Inv(r, start, p)
    ensures Inv(r, start, SignalStep(r, p, x))
  {
    EventsOne(p.log, Sig(x));
    PlayOne(r, start, p.log, Sig(x));
    assert Where(SignalStep(r, p, x)) == Where(p);
  }

  // ----- Every run -----

  lemma TakeAct<M, S, X>(r: Rules<M, S, X>, start: S, p: Pipe<S, X>)
    requires Inv(r, start, p)
    ensures Inv(r, start, Step(r, p, Take))
  {
    if p.handling.None? && p.used != [] {
      TakeKeeps(r, start, p);
    }
  }

  lemma HandleAct<M, S, X>(r: Rules<M, S, X>, start: S, p: Pipe<S, X>, mem: bool)
    requires Inv(r, start, p)
    ensures Inv(r, start, Step(r, p, Handle(mem)))
  {
    if p.handling.Some? && !p.handling.value.1 {
      HandleKeeps(r, start, p, mem);
    }
  }

  lemma ReleaseAct<M, S, X>(r: Rules<M, S, X>, start: S, p: Pipe<S, X>)
    requires Inv(r, start, p)
    ensures Inv(r, start, Step(r, p, Release))
  {
    if p.handling.Some? && p.handling.value.1 {
      ReleaseKeeps(r, start, p);
    }
  }

  lemma ReceiverAct<M, S, X>(r: Rules<M, S, X>, start: S, p: Pipe<S, X>, act: Act<X>)
    requires Inv(r, start, p) && Local(r) && (act.Chunk? || act.Look? || act.Hand?)
    ensures Inv(r, start, Step(r, p, act))
  {
    match act
    case Chunk(s) => if p.todo == [] && p.filling.None? { ChunkKeeps(r, start, p, s); }
    case Look(stale) => if p.todo != [] && p.filling.None? { LookKeeps(r, start, p, stale); }
    case Hand => if p.filling.Some? { HandKeeps(r, start, p); }
  }

  lemma StepKeeps<M, S, X>(r: Rules<M, S, X>, start: S, p: Pipe<S, X>, act: Act<X>)
    requires Inv(r, start, p) && Local(r)
    ensures Inv(r, start, Step(r, p, act))
  {
    match act
    case Take => TakeAct(r, start, p);
    case Handle(mem) => HandleAct(r, start, p, mem);
    case Release => ReleaseAct(r, start, p);
    case Signal(x) => SignalKeeps(r, start, p, x);
    case _ => ReceiverAct(r, start, p, act);
  }

  lemma OpenedOk<M, S, X>(r: Rules<M, S, X>, start: S, free: seq<nat>, junk: seq<seq<Byte>>)
    requires Buffers(junk) && EachOnce(multiset(free), NODES)
    ensures Ready<S, X>(Opened(start, free, junk)) && Inv(r, start, Opened(start, free, junk))
  {
    forall i | 0 <= i < |free| ensures free[i] < NODES {
      assert free[i] in multiset(free);
    }
    assert Where<S, X>(Opened(start, free, junk)) == multiset(free);
  }

  /** The invariant holds after every run. */
  lemma {:induction false} RunKeeps<M, S, X>(r: Rules<M, S, X>, start: S, p: Pipe<S, X>, acts: seq<Act<X>>)
    requires Inv(r, start, p) && Local(r)
    ensures Inv(r, start, Run(r, p, acts))
  {
    if acts != [] {
      RunKeeps(r, start, p, acts[..|acts| - 1]);
      StepKeeps(r, start, Run(r, p, acts[..|acts| - 1]), acts[|acts| - 1]);
    }
  }

  // ----- The pipe against direct handling -----

  /** An event the filter may drop would have done nothing. */
  ghost predicate DropsOnlyIdle<M, S(!new), X>(r: Rules<M, S, X>) {
    forall e: seq<Byte>, s: S, mem: bool :: r.sound(e) && Droppable(r, e) ==> r.apply(s, r.read(e), mem) == s
  }

  /** The log with the events that did not pass put back, each after what came before it. */
  function Weave<X>(es: seq<seq<Byte>>, passed: seq<bool>, log: seq<Done<X>>): seq<Done<X>>
    requires |passed| == |es|
    decreases |es| + |log|
  {
    var n, m := |es| - 1, |log| - 1;
    if log != [] && log[m].Sig? then Weave(es, passed, log[..m]) + [log[m]]
    else if es == [] then []
    else if !passed[n] then Weave(es[..n], passed[..n], log) + [Ev(es[n], true)]
    else if log == [] then []
    else Weave(es[..n], passed[..n], log[..m]) + [log[m]]
  }

  /** It holds all events and the same signals. */
  lemma {:induction false} WeaveHolds<X>(es: seq<seq<Byte>>, passed: seq<bool>, log: seq<Done<X>>)
    requires |passed| == |es| && EventsOf(log) == Select(es, passed)
    ensures EventsOf(Weave(es, passed, log)) == es && SignalsOf(Weave(es, passed, log)) == SignalsOf(log)
    decreases |es| + |log|
  {
    var n, m := |es| - 1, |log| - 1;
    if log != [] && log[m].Sig? {
      WeaveHolds(es, passed, log[..m]);
      EventsOne(Weave(es, passed, log[..m]), log[m]);
    } else if es != [] {
      assert es == es[..n] + [es[n]];
      if !passed[n] {
        WeaveHolds(es[..n], passed[..n], log);
        EventsOne(Weave(es[..n], passed[..n], log), Ev(es[n], true));
      } else {
        assert EventsOf(log) == EventsOf(log[..m]) + [log[m].e];
        Same(EventsOf(log[..m]), log[m].e, Select(es[..n], passed[..n]), es[n]);
        WeaveHolds(es[..n], passed[..n], log[..m]);
        EventsOne(Weave(es[..n], passed[..n], log[..m]), log[m]);
      }
    }
  }

  lemma Same(a: seq<seq<Byte>>, x: seq<Byte>, b: seq<seq<Byte>>, y: seq<Byte>)
    requires a + [x] == b + [y]
    ensures a == b && x == y
  {
    assert (a + [x])[..|a|] == a && (b + [y])[..|b|] == b && (a + [x])[|a|] == x && (b + [y])[|b|] == y;
  }

  lemma JustifiedFront<M, S, X>(r: Rules<M, S, X>, es: seq<seq<Byte>>, passed: seq<bool>, n: nat)
    requires Justified(r, es, passed) && AllSound(r, es) && n <= |es|
    ensures Justified(r, es[..n], passed[..n]) && AllSound(r, es[..n])
  {}

  /** Putting idle events back changes nothing. */
  lemma {:induction false} WeavePlays<M, S(!new), X>(r: Rules<M, S, X>, s: S, es: seq<seq<Byte>>, passed: seq<bool>, log: seq<Done<X>>)
    requires Justified(r, es, passed) && AllSound(r, es) && DropsOnlyIdle(r) && EventsOf(log) == Select(es, passed)
    ensures Play(r, s, Weave(es, passed, log)) == Play(r, s, log)
    decreases |es| + |log|
  {
    var n, m := |es| - 1, |log| - 1;
    if log != [] && log[m].Sig? {
      WeavePlays(r, s, es, passed, log[..m]);
      PlayOne(r, s, Weave(es, passed, log[..m]), log[m]);
    } else if es != [] {
      JustifiedFront(r, es, passed, n);
      if !passed[n] {
        WeavePlays(r, s, es[..n], passed[..n], log);
        PlayOne(r, s, Weave(es[..n], passed[..n], log), Ev(es[n], true));
      } else {
        Same(EventsOf(log[..m]), log[m].e, Select(es[..n], passed[..n]), es[n]);
        WeavePlays(r, s, es[..n], passed[..n], log[..m]);
        PlayOne(r, s, Weave(es[..n], passed[..n], log[..m]), log[m]);
      }
    }
  }

  /** Nothing is under way on either side. */
  predicate Quiet<S, X>(p: Pipe<S, X>) {
    p.todo == [] && p.filling.None? && p.handling.None? && p.used == []
  }

  /** What is true of a pipe at rest that never missed a buffer. */
  lemma AtRest<M, S(!new), X>(r: Rules<M, S, X>, start: S, p: Pipe<S, X>)
    requires Inv(r, start, p) && DropsOnlyIdle(r) && Quiet(p) && !p.dry && AllSound(r, Events(p.stream))
    ensures p.seen == Events(p.stream) && |p.passed| == |p.seen|
    ensures var all := Weave(Events(p.stream), p.passed, p.log);
      && EventsOf(all) == Events(p.stream) && SignalsOf(all) == SignalsOf(p.log)
      && p.state == Play(r, start, all)
  {
    assert p.seen + [] == p.seen;
    assert p.kept[..p.done] == p.kept;
    WeaveHolds(p.seen, p.passed, p.log);
    WeavePlays(r, start, p.seen, p.passed, p.log);
  }

  /**
   * However the stream was cut, whatever stale octets were seen and however receiver, worker and
   * signals took turns: at rest, if a buffer was never missing, the state is the one that direct
   * handling of all events of the stream gives, with the signals at the places where they came.
   */
  lemma Refines<M, S(!new), X>(r: Rules<M, S, X>, start: S, free: seq<nat>, junk: seq<seq<Byte>>, acts: seq<Act<X>>)
    requires Local(r) && DropsOnlyIdle(r) && Buffers(junk) && EachOnce(multiset(free), NODES)
    requires Ready<S, X>(Opened(start, free, junk))
    requires var p := Run(r, Opened(start, free, junk), acts); Quiet(p) && !p.dry && AllSound(r, Events(p.stream))
    ensures var p := Run(r, Opened(start, free, junk), acts);
      && |p.passed| == |Events(p.stream)|
      && var all := Weave(Events(p.stream), p.passed, p.log);
        && EventsOf(all) == Events(p.stream) && SignalsOf(all) == SignalsOf(p.log)
        && p.state == Play(r, start, all)
  {
    OpenedOk(r, start, free, junk);
    RunKeeps(r, start, Opened(start, free, junk), acts);
    AtRest(r, start, Run(r, Opened(start, free, junk), acts));
  }

  /** At every moment of every run each of the 32 buffers is in exactly one place. */
  lemma BuffersKept<M, S, X>(r: Rules<M, S, X>, start: S, free: seq<nat>, junk: seq<seq<Byte>>, acts: seq<Act<X>>, k: nat)
    requires Local(r) && Buffers(junk) && EachOnce(multiset(free), NODES) && Ready<S, X>(Opened(start, free, junk)) && k < NODES
    ensures Where(Run(r, Opened(start, free, junk), acts))[k] == 1
  {
    OpenedOk(r, start, free, junk);
    RunKeeps(r, start, Opened(start, free, junk), acts);
  }

  /** At every moment the state is what the log says, and its events are the first of those that got a buffer. */
  lemma HandledInOrder<M, S, X>(r: Rules<M, S, X>, start: S, free: seq<nat>, junk: seq<seq<Byte>>, acts: seq<Act<X>>)
    requires Local(r) && Buffers(junk) && EachOnce(multiset(free), NODES) && Ready<S, X>(Opened(start, free, junk))
    requires AllSound(r, Run(r, Opened(start, free, junk), acts).seen)
    ensures var p := Run(r, Opened(start, free, junk), acts);
      && p.state == Play(r, start, p.log) && EventsOf(p.log) <= p.kept
      && |p.passed| == |p.seen| && p.kept == Select(p.seen, p.passed)
      && p.seen + p.todo == Events(p.stream)
  {
    OpenedOk(r, start, free, junk);
    RunKeeps(r, start, Opened(start, free, junk), acts);
  }

  // ----- One event in one go -----

  /** The receiver looks at an event and at once hands it over. */
  function Accept<M, S, X>(r: Rules<M, S, X>, p: Pipe<S, X>, stale: seq<Byte>): (q: Pipe<S, X>)
    requires Ready(p)
    ensures Ready(q)
  {
    Step(r, Step(r, p, Look(stale)), Hand)
  }

  lemma AcceptLists<M, S, X>(r: Rules<M, S, X>, p: Pipe<S, X>, stale: seq<Byte>, e: seq<Byte>)
    requires Ready(p) && p.todo != [] && p.todo[0] == e && p.filling.None?
    ensures var q := Accept(r, p, stale);
      if r.drop(e + stale) || p.free == [] then q.free == p.free && q.used == p.used && q.data == p.data && q.kept == p.kept
      else
        var n := p.free[0];
        && q.free == p.free[1..] && q.used == p.used + [n] && q.data == p.data[n := Filled(p.data[n], e)] && q.kept == p.kept + [e]
  {}

  lemma AcceptRest<M, S, X>(r: Rules<M, S, X>, p: Pipe<S, X>, stale: seq<Byte>)
    requires Ready(p) && p.todo != [] && p.filling.None?
    ensures var q := Accept(r, p, stale);
      && q.filling.None? && q.handling == p.handling && q.part == p.part && q.todo == p.todo[1..] && q.state == p.state
      && q.done == p.done && q.stream == p.stream && q.log == p.log
  {}

  /** The worker takes a buffer, handles it and gives it back. */
  function Worked<M, S, X>(r: Rules<M, S, X>, p: Pipe<S, X>, mem: bool): (q: Pipe<S, X>)
    requires Ready(p)
    ensures Ready(q)
  {
    Step(r, Step(r, Step(r, p, Take), Handle(mem)), Release)
  }

  lemma WorkedIs<M, S, X>(r: Rules<M, S, X>, p: Pipe<S, X>, mem: bool, n: nat)
    requires Ready(p) && p.used != [] && p.used[0] == n && p.handling.None? && p.done < |p.kept|
    ensures Worked(r, p, mem) ==
      p.(used := p.used[1..], free := p.free + [n], state := r.apply(p.state, r.read(p.data[n]), mem),
         done := p.done + 1, log := p.log + [Ev(p.kept[p.done], mem)])
  {
    var p1 := TakeStep(p);
    var p2 := HandleStep(r, p1, mem);
    assert p2.handling == Some((n, true));
  }

  // ----- Runs put together -----

  lemma RunOne<M, S, X>(r: Rules<M, S, X>, p: Pipe<S, X>, acts: seq<Act<X>>, act: Act<X>)
    requires Ready(p)
    ensures Run(r, p, acts + [act]) == Step(r, Run(r, p, acts), act)
  {
    assert (acts + [act])[..|acts|] == acts;
  }

  lemma RunTwo<M, S, X>(r: Rules<M, S, X>, p: Pipe<S, X>, x: Act<X>, y: Act<X>)
    requires Ready(p)
    ensures Run(r, p, [x, y]) == Step(r, Step(r, p, x), y)
  {
    RunOne(r, p, [], x);
    RunOne(r, p, [x], y);
    assert [] + [x] == [x] && [x] + [y] == [x, y];
  }

  lemma RunThree<M, S, X>(r: Rules<M, S, X>, p: Pipe<S, X>, x: Act<X>, y: Act<X>, z: Act<X>)
    requires Ready(p)
    ensures Run(r, p, [x, y, z]) == Step(r, Step(r, Step(r, p, x), y), z)
  {
    RunTwo(r, p, x, y);
    RunOne(r, p, [x, y], z);
    assert [x, y] + [z] == [x, y, z];
  }

  lemma {:induction false} RunJoin<M, S, X>(r: Rules<M, S, X>, p: Pipe<S, X>, xs: seq<Act<X>>, ys: seq<Act<X>>)
    requires Ready(p)
    ensures Run(r, p, xs + ys) == Run(r, Run(r, p, xs), ys)
  {
    if ys == [] {
      assert xs + ys == xs;
    } else {
      var front, last := ys[..|ys| - 1], ys[|ys| - 1];
      assert ys == front + [last];
      assert xs + ys == (xs + front) + [last];
      RunJoin(r, p, xs, front);
      RunOne(r, p, xs + front, last);
      RunOne(r, Run(r, p, xs), front, last);
    }
  }

  // ----- One event all the way -----

  /** Nothing is in either hand, nothing is queued, and the last event was whole. */
  predicate Idle<S, X>(p: Pipe<S, X>) {
    Quiet(p) && Ready(p) && p.part == [] && p.free != [] && p.done == |p.kept|
  }

  /** One whole event that passes the filter is filled into the first free buffer. */
  lemma ReceiveOne<M, S, X>(r: Rules<M, S, X>, p: Pipe<S, X>, e: seq<Byte>)
    requires Idle(p) && Events(e) == [e] && !r.drop(e)
    ensures var n := p.free[0]; var q := Run(r, p, [Chunk(e), Look([]), Hand]);
      && q == p.(part := Leftover(e), stream := p.stream + e, seen := p.seen + [e], passed := p.passed + [true],
                 free := p.free[1..], kept := p.kept + [e], used := [n], data := p.data[n := Filled(p.data[n], e)])
  {
    RunThree(r, p, Chunk(e), Look([]), Hand);
    assert [] + e == e && e + [] == e;
    var p1 := ChunkStep(p, e);
    assert p1.todo == [e] && p1.todo[1..] == [];
    var p2 := LookStep(r, p1, []);
    assert [] + [p.free[0]] == [p.free[0]];
  }

  /** A single queued buffer is handled and given back. */
  lemma WorkOne<M, S, X>(r: Rules<M, S, X>, p: Pipe<S, X>, n: nat)
    requires Ready(p) && |p.used| == 1 && p.used[0] == n && p.handling.None? && p.done < |p.kept|
    ensures var q := Run(r, p, [Take, Handle(true), Release]);
      && q.used == [] && q.handling.None? && q.state == r.apply(p.state, r.read(p.data[n]), true)
      && q.todo == p.todo && q.filling == p.filling && q.dry == p.dry && q.stream == p.stream
  {
    RunThree(r, p, Take, Handle(true), Release);
    WorkedIs(r, p, true, n);
  }

  /** An event received, then worked off. */
  function OneEvent<X>(e: seq<Byte>): seq<Act<X>> {
    [Chunk(e), Look([]), Hand] + [Take, Handle(true), Release]
  }

  /** So a single event is read over whatever the first free buffer holds. */
  lemma SingleEvent<M, S, X>(r: Rules<M, S, X>, p: Pipe<S, X>, e: seq<Byte>)
    requires Idle(p) && Events(e) == [e] && !r.drop(e)
    ensures var n := p.free[0]; var q := Run(r, p, OneEvent(e));
      Quiet(q) && q.dry == p.dry && q.stream == p.stream + e && q.state == r.apply(p.state, r.read(Filled(p.data[n], e)), true)
  {
    RunJoin(r, p, [Chunk(e), Look([]), Hand], [Take, Handle(true), Release]);
    ReceiveOne(r, p, e);
    WorkOne(r, Run(r, p, [Chunk(e), Look([]), Hand]), p.free[0]);
  }
}
