/** Putting HCI events together from chunks of octets. */
module Reassembly {
  import opened Bytes

  const HEADER: nat := 2
  const MAX_EVENT: nat := 260

  /** Whether a whole event stands at the front: two header octets and as many as the second says. */
  predicate Whole(s: seq<Byte>) {
    |s| >= HEADER && |s| >= HEADER + s[1] as int
  }

  /** The whole events at the front of a stream. */
  function Events(s: seq<Byte>): seq<seq<Byte>>
    decreases |s|
  {
    if !Whole(s) then [] else
      var n := HEADER + s[1] as int;
      [s[..n]] + Events(s[n..])
  }

  /** The rest, which is not a whole event yet. */
  function Leftover(s: seq<Byte>): (r: seq<Byte>)
    ensures !Whole(r)
    decreases |s|
  {
    if !Whole(s) then s else
      var n := HEADER + s[1] as int;
      Leftover(s[n..])
  }

  lemma FirstEvent(a: seq<Byte>, b: seq<Byte>, n: nat)
    requires Whole(a) && n == HEADER + a[1] as int
    ensures Events(a + b) == [a[..n]] + Events(a[n..] + b) && Leftover(a + b) == Leftover(a[n..] + b)
  {
    assert (a + b)[..n] == a[..n] && (a + b)[n..] == a[n..] + b;
  }

  lemma Regroup<T>(e: seq<T>, f: seq<T>, g: seq<T>)
    ensures e + (f + g) == (e + f) + g
  {}

  /** Cutting the stream anywhere does not matter. */
  lemma {:induction false} CutAnywhere(a: seq<Byte>, b: seq<Byte>)
    ensures Events(a + b) == Events(a) + Events(Leftover(a) + b)
    ensures Leftover(a + b) == Leftover(Leftover(a) + b)
    decreases |a|
  {
    if Whole(a) {
      var n := HEADER + a[1] as int;
      FirstEvent(a, b, n);
      CutAnywhere(a[n..], b);
      Regroup([a[..n]], Events(a[n..]), Events(Leftover(a) + b));
    } else {
      Regroup([], [], Events(a + b));
    }
  }

  /** How much more is needed before the next decision: the header, then the parameters. */
  function Expect(part: seq<Byte>): nat
    requires !Whole(part)
  {
    if |part| < HEADER then HEADER - |part| else HEADER + part[1] as int - |part|
  }

  /** Appends octets until the next decision; a whole event leaves the buffer empty. */
  lemma OneCopy(part: seq<Byte>, s: seq<Byte>, n: nat)
    requires !Whole(part) && n <= Expect(part) && n <= |s|
    ensures var now := part + s[..n];
      if Whole(now) then
        && |now| == HEADER + now[1] as int
        && Events(part + s) == [now] + Events(s[n..]) && Leftover(part + s) == Leftover(s[n..])
      else part + s == now + s[n..]
  {
    var now := part + s[..n];
    assert part + s == now + s[n..];
    if Whole(now) {
      assert now[1] == (part + s)[1];
      assert (part + s)[..|now|] == now && (part + s)[|now|..] == s[n..];
    }
  }

  /** The receiving side's buffer: octets collected, and how many are awaited. */
  class Assembler {
    const buf: array<Byte>
    var elen: nat
    var awaited: nat
    var begun: bool

    constructor ()
      ensures fresh(buf) && Valid() && Part() == []
    {
      buf := new Byte[MAX_EVENT];
      elen, awaited, begun := 0, 0, false;
    }

    /** The event under construction. */
    function Part(): seq<Byte>
      requires elen <= buf.Length
      reads this, buf
    {
      if begun then buf[..elen] else []
    }

    ghost predicate Valid()
      reads this, buf
    {
      && buf.Length == MAX_EVENT && elen <= MAX_EVENT
      && !Whole(Part())
      && (begun ==> awaited == Expect(Part()))
    }

    method Copy(s: seq<Byte>)
      requires elen + |s| <= buf.Length
      modifies this`elen, buf
      ensures elen == old(elen) + |s| && buf[..elen] == old(buf[..elen]) + s
    {
      for k := 0 to |s|
        invariant elen == old(elen) && buf[..elen + k] == old(buf[..elen]) + s[..k]
      {
        buf[elen + k] := s[k];
      }
      assert s[..|s|] == s;
      elen := elen + |s|;
    }

    /** One round of the loop: opens a frame if need be, copies, and hands out a whole event. */
    method Round(s: seq<Byte>) returns (n: nat, whole: Option<seq<Byte>>)
      requires Valid() && s != []
      modifies this, buf
      ensures Valid() && 0 < n <= |s|
      ensures match whole
        case Some(e) =>
          && Part() == [] && |e| <= MAX_EVENT && buf[..|e|] == e && Events(old(Part()) + s) == [e] + Events(s[n..]) && Leftover(old(Part()) + s) == Leftover(s[n..])
        case None => old(Part()) + s == Part() + s[n..]
    {
      if !begun {
        elen, awaited, begun := 0, HEADER, true;
      }
      ghost var part := Part();
      n := if awaited < |s| then awaited else |s|;
      OneCopy(part, s, n);
      Copy(s[..n]);
      awaited := awaited - n;
      if elen == HEADER {
        awaited := buf[1];
      }
      if awaited == 0 {
        whole := Some(buf[..elen]);
        begun := false;
        elen := 0;
      } else {
        whole := None;
      }
    }

    /** The events handed out and what is left come to the events of `all`. */
    ghost predicate Parsing(out: seq<seq<Byte>>, rest: seq<Byte>, all: seq<Byte>)
      reads this, buf
    {
      Valid() && out + Events(Part() + rest) == Events(all) && Leftover(Part() + rest) == Leftover(all)
    }

    method ParseRound(out: seq<seq<Byte>>, rest: seq<Byte>, ghost all: seq<Byte>) returns (n: nat, now: seq<seq<Byte>>)
      requires Parsing(out, rest, all) && rest != []
      modifies this, buf
      ensures 0 < n <= |rest| && Parsing(now, rest[n..], all)
    {
      var whole;
      n, whole := Round(rest);
      now := out;
      if whole.Some? {
        now := out + [whole.value];
        Regroup(out, [whole.value], Events(rest[n..]));
        assert [] + rest[n..] == rest[n..];
      }
    }

    /** The receiving loop: hands out the events the chunk completes, in order. */
    method ParseEvent(chunk: seq<Byte>) returns (out: seq<seq<Byte>>)
      requires Valid()
      modifies this, buf
      ensures Valid() && out == Events(old(Part()) + chunk) && Part() == Leftover(old(Part()) + chunk)
    {
      out := [];
      var rest := chunk;
      assert [] + Events(Part() + rest) == Events(Part() + rest);
      while rest != []
        invariant Parsing(out, rest, old(Part()) + chunk)
        decreases |rest|
      {
        var n;
        n, out := ParseRound(out, rest, old(Part()) + chunk);
        rest := rest[n..];
      }
      assert Part() + [] == Part();
      assert out + [] == out;
    }
  }

  // ----- Nothing is lost -----

  function Flat(es: seq<seq<Byte>>): seq<Byte> {
    if es == [] then [] else es[0] + Flat(es[1..])
  }

  /**
   * The events and what is left are the stream, octet for octet; an event has as many octets behind its
   * first two as the second says, and what is left has fewer.
   */
  lemma {:induction false} EventsTile(s: seq<Byte>)
    ensures Flat(Events(s)) + Leftover(s) == s
    ensures forall i :: 0 <= i < |Events(s)| ==> |Events(s)[i]| >= 2 && |Events(s)[i]| == 2 + Events(s)[i][1] as int
    ensures var r := Leftover(s); |r| < 2 || |r| < 2 + r[1] as int
    decreases |s|
  {
    if Whole(s) {
      var n := HEADER + s[1] as int;
      var first, rest := s[..n], s[n..];
      EventsTile(rest);
      assert Events(s) == [first] + Events(rest);
      assert Events(s)[1..] == Events(rest);
      assert first + (Flat(Events(rest)) + Leftover(rest)) == first + Flat(Events(rest)) + Leftover(rest);
      assert first + rest == s;
    }
  }
}
