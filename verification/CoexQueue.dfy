/** The event pipe in place: the receiver's buffer, the two lists, and the coexistence object at the end. */
module CoexQueue {
  import opened Bytes
  import opened Coex
  import opened CoexEvents
  import opened EventPipe
  import opened Reassembly
  import opened CoexPipe
  import CoexDevice

  function NoData(): (r: seq<seq<Byte>>)
    ensures Buffers(r)
  {
    seq(NODES, i => Zeros())
  }

  /** Every buffer once, in the order of their numbers. */
  predicate AllFree(free: seq<nat>) {
    |free| == NODES && forall i :: 0 <= i < |free| ==> free[i] == i
  }

  /** A new queue is in order. */
  lemma NewPipe(free: seq<nat>, p: Pipe<State, Op>)
    requires AllFree(free) && p == Opened(Start, free, NoData())
    ensures Inv(CoexRules(), Start, p)
  {
    NumbersOnce(|free|);
    assert free == Numbers(|free|);
    OpenedOk(CoexRules(), Start, free, NoData());
  }

  /** Puts the buffers on the free list, one after the other. */
  method FreeList() returns (free: seq<nat>)
    ensures AllFree(free)
  {
    free := [];
    for i := 0 to NODES
      invariant |free| == i && forall k :: 0 <= k < i ==> free[k] == k
    {
      free := free + [i];
    }
  }

  /** So many buffers taken, handled and given back. */
  ghost function WorkActs(mem: nat -> bool, n: nat): seq<Act<Op>> {
    if n == 0 then [] else WorkActs(mem, n - 1) + [Take, Handle(mem(n - 1)), Release]
  }

  lemma WorkRun(p: Pipe<State, Op>, mem: nat -> bool, n: nat)
    requires Ready(p)
    ensures Run(CoexRules(), p, WorkActs(mem, n + 1))
         == Worked(CoexRules(), Run(CoexRules(), p, WorkActs(mem, n)), mem(n))
  {
    var q := Run(CoexRules(), p, WorkActs(mem, n));
    RunJoin(CoexRules(), p, WorkActs(mem, n), [Take, Handle(mem(n)), Release]);
    RunThree(CoexRules(), q, Take, Handle(mem(n)), Release);
  }

  /** A chunk arrives, then nothing but looking at events and handing them over. */
  ghost predicate Receiving(acts: seq<Act<Op>>, chunk: seq<Byte>) {
    acts != [] && acts[0] == Chunk(chunk) && forall i :: 1 <= i < |acts| ==> acts[i].Look? || acts[i].Hand?
  }

  lemma ChunkRun(p: Pipe<State, Op>, chunk: seq<Byte>)
    requires Ready(p) && p.todo == [] && p.filling.None?
    ensures Run(CoexRules(), p, [Chunk(chunk)]) == ChunkStep(p, chunk)
  {
    var one: Act<Op> := Chunk(chunk);
    assert [one][..0] == [];
  }

  lemma AcceptRun(p: Pipe<State, Op>, acts: seq<Act<Op>>, stale: seq<Byte>, chunk: seq<Byte>)
    requires Ready(p) && Receiving(acts, chunk)
    ensures Run(CoexRules(), p, acts + [Look(stale), Hand])
         == Accept(CoexRules(), Run(CoexRules(), p, acts), stale)
    ensures Receiving(acts + [Look(stale), Hand], chunk)
  {
    RunJoin(CoexRules(), p, acts, [Look(stale), Hand]);
    RunTwo(CoexRules(), Run(CoexRules(), p, acts), Look(stale), Hand);
  }

  class EventQueue {
    const asm: Assembler
    const coex: CoexDevice.Btcoex
    var free: seq<nat>
    var used: seq<nat>
    var data: seq<seq<Byte>>

    /** The pipe these fields are the present of, with its history. */
    ghost var pipe: Pipe<State, Op>

    /** The lists, the buffers and the coexistence object are the pipe's, and nothing is in a hand. */
    ghost predicate Linked()
      reads this, coex
    {
      && Ready(pipe) && Sane(coex.View())
      && pipe.free == free && pipe.used == used && pipe.data == data && pipe.state == coex.View()
      && pipe.filling.None? && pipe.handling.None? && |pipe.kept| == pipe.done + |used|
    }

    /** Between calls the receiver's buffer is the pipe's too. */
    ghost predicate Valid()
      reads this, coex, asm, asm.buf
    {
      Linked() && asm.Valid() && pipe.part == asm.Part() && pipe.todo == []
    }

    constructor ()
      ensures Valid() && fresh(asm) && fresh(asm.buf) && fresh(coex)
      ensures AllFree(free) && pipe == Opened(Start, free, NoData()) && Inv(CoexRules(), Start, pipe)
    {
      asm := new Assembler();
      coex := new CoexDevice.Btcoex();
      var list := FreeList();
      free, used, data := list, [], NoData();
      pipe := Opened(Start, list, NoData());
      new;
      NewPipe(list, pipe);
    }

    /** Takes a free buffer, if there is one. */
    method NodeGet() returns (n: Option<nat>)
      modifies this`free
      ensures if old(free) == [] then n == None && free == [] else n == Some(old(free)[0]) && free == old(free)[1..]
    {
      if free == [] {
        return None;
      }
      n := Some(free[0]);
      free := free[1..];
    }

    /** Filters an event, copies it into a buffer and queues it. Behind the event the filter sees what is in `s`. */
    method Enqueue(s: seq<Byte>, count: nat)
      requires Linked() && count <= |s| && pipe.todo != [] && pipe.todo[0] == s[..count]
      modifies this
      ensures Linked() && pipe == Accept(CoexRules(), old(pipe), s[count..])
    {
      assert s == s[..count] + s[count..];
      AcceptLists(CoexRules(), pipe, s[count..], s[..count]);
      AcceptRest(CoexRules(), pipe, s[count..]);
      pipe := Accept(CoexRules(), pipe, s[count..]);
      if FilteredOut(s) {
        return;
      }
      var n := NodeGet();
      if n.None? {
        return;
      }
      data := data[n.value := Filled(data[n.value], s[..count])];
      used := used + [n.value];
    }

    /** Handles the first queued buffer and gives it back. */
    method WorkOne(mem: bool)
      requires Linked() && used != []
      modifies this, coex
      ensures Linked() && pipe == Worked(CoexRules(), old(pipe), mem) && |used| == |old(used)| - 1
      ensures pipe.part == old(pipe.part) && pipe.todo == old(pipe.todo) && pipe.stream == old(pipe.stream)
      ensures SignalsOf(pipe.log) == SignalsOf(old(pipe.log))
    {
      WorkedIs(CoexRules(), pipe, mem, used[0]);
      EventsOne(pipe.log, Ev(pipe.kept[pipe.done], mem));
      var n := used[0];
      used := used[1..];
      coex.ParseEventData(data[n], mem);
      free := free + [n];
      pipe := Worked(CoexRules(), pipe, mem);
    }

    /** The worker has worked off `k` buffers since `start`. */
    ghost predicate Working(start: Pipe<State, Op>, mem: nat -> bool, k: nat)
      reads this, coex
    {
      && Linked() && Ready(start) && pipe.part == start.part && pipe.todo == start.todo && k + |used| == |start.used|
      && pipe.stream == start.stream && SignalsOf(pipe.log) == SignalsOf(start.log)
      && pipe == Run(CoexRules(), start, WorkActs(mem, k))
    }

    method WorkRound(mem: nat -> bool, k: nat, ghost start: Pipe<State, Op>)
      requires Working(start, mem, k) && used != []
      modifies this, coex
      ensures Working(start, mem, k + 1)
    {
      WorkRun(start, mem, k);
      WorkOne(mem(k));
    }

    /** The worker: handles the queued buffers in order. */
    method Work(mem: nat -> bool)
      requires Valid()
      modifies this, coex
      ensures Valid() && used == [] && pipe == Run(CoexRules(), old(pipe), WorkActs(mem, |old(used)|))
      ensures pipe.stream == old(pipe.stream) && SignalsOf(pipe.log) == SignalsOf(old(pipe.log))
    {
      var k := 0;
      while used != []
        invariant Working(old(pipe), mem, k)
        decreases |used|
      {
        WorkRound(mem, k, old(pipe));
        k := k + 1;
      }
    }

    /** The receiver has gone through a chunk up to `rest`; what is whole in it waits in `todo`. */
    ghost predicate Taking(start: Pipe<State, Op>, acts: seq<Act<Op>>, chunk: seq<Byte>, rest: seq<Byte>)
      reads this, coex, asm, asm.buf
    {
      && Linked() && asm.Valid() && Ready(start) && Receiving(acts, chunk)
      && pipe.todo == Events(asm.Part() + rest) && pipe.part == Leftover(asm.Part() + rest)
      && pipe.stream == start.stream + chunk && pipe.log == start.log
      && pipe == Run(CoexRules(), start, acts)
    }

    /** A whole event at the front of the receiver's buffer is queued. */
    method Completed(count: nat, ghost start: Pipe<State, Op>, ghost acts: seq<Act<Op>>, ghost chunk: seq<Byte>)
      returns (ghost now: seq<Act<Op>>)
      requires Linked() && Ready(start) && pipe == Run(CoexRules(), start, acts) && Receiving(acts, chunk)
      requires count <= asm.buf.Length && pipe.todo != [] && pipe.todo[0] == asm.buf[..count]
      modifies this
      ensures Linked() && pipe.part == old(pipe.part) && pipe.todo == old(pipe.todo)[1..]
      ensures pipe.stream == old(pipe.stream) && pipe.log == old(pipe.log)
      ensures pipe == Run(CoexRules(), start, now) && Receiving(now, chunk)
    {
      var s := asm.buf[..];
      AcceptRest(CoexRules(), pipe, s[count..]);
      AcceptRun(start, acts, s[count..], chunk);
      now := acts + [Look(s[count..]), Hand];
      Enqueue(s, count);
    }

    method ReceiveRound(rest: seq<Byte>, ghost start: Pipe<State, Op>, ghost acts: seq<Act<Op>>, ghost chunk: seq<Byte>)
      returns (n: nat, ghost now: seq<Act<Op>>)
      requires Taking(start, acts, chunk, rest) && rest != []
      modifies this, asm, asm.buf
      ensures 0 < n <= |rest| && Taking(start, now, chunk, rest[n..])
    {
      var whole;
      n, whole := asm.Round(rest);
      now := acts;
      if whole.Some? {
        assert [] + rest[n..] == rest[n..];
        now := Completed(|whole.value|, start, acts, chunk);
      }
    }

    /** The receiver: puts the events of a chunk together and queues each as soon as it is whole. */
    method Receive(chunk: seq<Byte>) returns (ghost acts: seq<Act<Op>>)
      requires Valid()
      modifies this, asm, asm.buf
      ensures Valid() && pipe == Run(CoexRules(), old(pipe), acts) && Receiving(acts, chunk)
      ensures pipe.stream == old(pipe.stream) + chunk && pipe.log == old(pipe.log)
    {
      acts := [Chunk(chunk)];
      ChunkRun(pipe, chunk);
      pipe := ChunkStep(pipe, chunk);
      var rest := chunk;
      while rest != []
        invariant Taking(old(pipe), acts, chunk, rest)
        decreases |rest|
      {
        var n;
        n, acts := ReceiveRound(rest, old(pipe), acts, chunk);
        rest := rest[n..];
      }
      assert asm.Part() + [] == asm.Part();
    }

    /** An L2CAP packet is looked at. */
    method Packet(op: Op)
      requires Valid() && !op.Event?
      modifies this, coex
      ensures Valid() && pipe == Step(CoexRules(), old(pipe), Signal(op)) && used == old(used)
    {
      coex.Packet(op);
      pipe := SignalStep(CoexRules(), pipe, op);
    }

    /** Some acts were done since `start` that took in these octets and packets. */
    ghost predicate Performed(start: Pipe<State, Op>, acts: seq<Act<Op>>, octets: seq<Byte>, packets: seq<Op>)
      requires Ready(start)
      reads this, coex, asm, asm.buf
    {
      && Valid() && pipe == Run(CoexRules(), start, acts)
      && pipe.stream == start.stream + octets && SignalsOf(pipe.log) == SignalsOf(start.log) + packets
    }

    method ReceiveJob(chunk: seq<Byte>) returns (ghost acts: seq<Act<Op>>)
      requires Valid()
      modifies this, asm, asm.buf
      ensures Performed(old(pipe), acts, chunk, [])
    {
      assert SignalsOf(pipe.log) + [] == SignalsOf(pipe.log);
      acts := Receive(chunk);
    }

    method WorkJob(mem: nat -> bool) returns (ghost acts: seq<Act<Op>>)
      requires Valid()
      modifies this, coex
      ensures Performed(old(pipe), acts, [], [])
    {
      assert pipe.stream + [] == pipe.stream && SignalsOf(pipe.log) + [] == SignalsOf(pipe.log);
      acts := WorkActs(mem, |used|);
      Work(mem);
    }

    method PacketJob(op: Op) returns (ghost acts: seq<Act<Op>>)
      requires Valid() && !op.Event?
      modifies this, coex
      ensures Performed(old(pipe), acts, [], [op])
    {
      assert pipe.stream + [] == pipe.stream;
      acts := [Signal(op)];
      SignalRun(pipe, op);
      EventsOne(pipe.log, Sig(op));
      Packet(op);
    }

    /** One job of the receiver, the worker or the L2CAP side. */
    method Do(job: Job) returns (ghost acts: seq<Act<Op>>)
      requires Valid() && Allowed(job)
      modifies this, asm, asm.buf, coex
      ensures Performed(old(pipe), acts, OctetsOf(job), PacketsOf(job))
    {
      match job
      case Receive(chunk) => acts := ReceiveJob(chunk);
      case Work(mem) => acts := WorkJob(mem);
      case Packet(op) => acts := PacketJob(op);
    }

    /** In order, and these octets and packets went in since `start`. */
    ghost predicate Serving(start: Pipe<State, Op>, octets: seq<Byte>, packets: seq<Op>)
      reads this, coex, asm, asm.buf
    {
      && Valid() && Inv(CoexRules(), Start, pipe)
      && pipe.stream == start.stream + octets && SignalsOf(pipe.log) == SignalsOf(start.log) + packets
    }

    method ServeOne(job: Job, ghost start: Pipe<State, Op>, ghost octets: seq<Byte>, ghost packets: seq<Op>)
      requires Serving(start, octets, packets) && Allowed(job)
      modifies this, asm, asm.buf, coex
      ensures Serving(start, octets + OctetsOf(job), packets + PacketsOf(job))
    {
      ghost var were := pipe;
      ghost var acts := Do(job);
      CoexLocal();
      RunKeeps(CoexRules(), Start, were, acts);
      Regroup(start.stream, octets, OctetsOf(job));
      Regroup(SignalsOf(start.log), packets, PacketsOf(job));
    }

    method ServeRest(last: nat -> bool, ghost start: Pipe<State, Op>, ghost octets: seq<Byte>, ghost packets: seq<Op>)
      requires Serving(start, octets, packets)
      modifies this, coex
      ensures Serving(start, octets, packets) && used == []
      ensures AllSound(CoexRules(), Events(pipe.stream)) ==> Handled(pipe) && (!pipe.dry ==> Direct(pipe))
    {
      ghost var were := pipe;
      Work(last);
      CoexLocal();
      RunKeeps(CoexRules(), Start, were, WorkActs(last, |were.used|));
      Rested(pipe);
    }

    method ServeAll(jobs: seq<Job>, ghost start: Pipe<State, Op>)
      requires Serving(start, [], []) && forall i :: 0 <= i < |jobs| ==> Allowed(jobs[i])
      modifies this, asm, asm.buf, coex
      ensures Serving(start, Octets(jobs), Packets(jobs))
    {
      ghost var octets: seq<Byte>, packets: seq<Op> := [], [];
      for i := 0 to |jobs|
        invariant Serving(start, octets, packets)
        invariant octets == Octets(jobs[..i]) && packets == Packets(jobs[..i])
      {
        JobsNext(jobs, i);
        ServeOne(jobs[i], start, octets, packets);
        octets, packets := octets + OctetsOf(jobs[i]), packets + PacketsOf(jobs[i]);
      }
      assert jobs[..|jobs|] == jobs;
    }

    /**
     * Chunks are received, the worker is woken and L2CAP packets pass by in any order, and the worker
     * runs once more at the end: if all events are settled, the coexistence object is where direct
     * handling of the events that found a buffer would have left it, and if a buffer was never missing,
     * where direct handling of all events would have.
     */
    method Serve(jobs: seq<Job>, last: nat -> bool)
      requires Valid() && Inv(CoexRules(), Start, pipe) && forall i :: 0 <= i < |jobs| ==> Allowed(jobs[i])
      modifies this, asm, asm.buf, coex
      ensures Serving(old(pipe), Octets(jobs), Packets(jobs)) && used == [] && pipe.state == coex.View()
      ensures AllSound(CoexRules(), Events(pipe.stream)) ==> Handled(pipe) && (!pipe.dry ==> Direct(pipe))
    {
      assert pipe.stream + [] == pipe.stream && SignalsOf(pipe.log) + [] == SignalsOf(pipe.log);
      ServeAll(jobs, old(pipe));
      ServeRest(last, old(pipe), Octets(jobs), Packets(jobs));
    }
  }

  /** What the three sides are asked to do. */
  datatype Job = Receive(chunk: seq<Byte>) | Work(mem: nat -> bool) | Packet(op: Op)

  predicate Allowed(job: Job) {
    job.Packet? ==> !job.op.Event?
  }

  function OctetsOf(job: Job): seq<Byte> {
    if job.Receive? then job.chunk else []
  }

  function PacketsOf(job: Job): seq<Op> {
    if job.Packet? then [job.op] else []
  }

  function Octets(jobs: seq<Job>): seq<Byte> {
    if jobs == [] then [] else Octets(jobs[..|jobs| - 1]) + OctetsOf(jobs[|jobs| - 1])
  }

  function Packets(jobs: seq<Job>): seq<Op> {
    if jobs == [] then [] else Packets(jobs[..|jobs| - 1]) + PacketsOf(jobs[|jobs| - 1])
  }

  lemma Rested(p: Pipe<State, Op>)
    requires Inv(CoexRules(), Start, p) && Quiet(p)
    ensures AllSound(CoexRules(), Events(p.stream)) ==> Handled(p) && (!p.dry ==> Direct(p))
  {
    if AllSound(CoexRules(), Events(p.stream)) {
      RestIsHandled(p);
      if !p.dry {
        RestIsDirect(p);
      }
    }
  }

  lemma JobsNext(jobs: seq<Job>, i: nat)
    requires i < |jobs|
    ensures Octets(jobs[..i + 1]) == Octets(jobs[..i]) + OctetsOf(jobs[i])
    ensures Packets(jobs[..i + 1]) == Packets(jobs[..i]) + PacketsOf(jobs[i])
  {
    assert jobs[..i + 1][..i] == jobs[..i];
  }

  lemma SignalRun(p: Pipe<State, Op>, op: Op)
    requires Ready(p)
    ensures Run(CoexRules(), p, [Signal(op)]) == Step(CoexRules(), p, Signal(op))
  {
    var one: Act<Op> := Signal(op);
    assert [one][..0] == [];
  }
}
