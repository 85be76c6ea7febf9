/**
 * The download as a run: the host sends packet `at`, repeats it on a timeout, and moves on when the
 * index it last heard equals the index it last sent. The lines keep order and may lose packets.
 */
module StopAndWait {
  import opened Bytes
  import opened Download

  /**
   * `at` is the packet the host is at, `heard` the index octet it last heard. `line` and `back` are
   * the numbers of packets and answers under way; `got` counts the packets the controller took, in
   * order.
   */
  datatype State = State(at: nat, heard: int, line: seq<nat>, back: seq<nat>, got: nat)

  /** `Take` says whether the controller answers; it may leave a packet it saw before unanswered. */
  datatype Act = Send | Take(answers: bool) | Hear | LosePacket(k: nat) | LoseAnswer(k: nat)

  const Begin: State := State(0, -1, [], [], 0)

  function Drop(s: seq<nat>, k: nat): seq<nat> {
    if k < |s| then s[..k] + s[k + 1..] else s
  }

  /** One step of a download of `n` packets. */
  function Step(s: State, n: nat, act: Act): State {
    match act
    case Send => if s.at < n then s.(line := s.line + [s.at]) else s
    case Take(answers) =>
      if s.line == [] then s else
        var p := s.line[0];
        s.(line := s.line[1..], got := if p == s.got then s.got + 1 else s.got,
           back := if answers && p <= s.got then s.back + [p] else s.back)
    case Hear =>
      if s.back == [] then s else
        var heard := Index(s.back[0]);
        s.(back := s.back[1..], heard := heard, at := if s.at < n && heard == Index(s.at) then s.at + 1 else s.at)
    case LosePacket(k) => s.(line := Drop(s.line, k))
    case LoseAnswer(k) => s.(back := Drop(s.back, k))
  }

  function Run(s: State, n: nat, acts: seq<Act>): State {
    if acts == [] then s else Step(Run(s, n, acts[..|acts| - 1]), n, acts[|acts| - 1])
  }

  predicate Ordered(s: seq<nat>) {
    forall i, j :: 0 <= i < j < |s| ==> s[i] <= s[j]
  }

  /** The controller is level with the host or one ahead, and nothing older than that is under way. */
  predicate Inv(s: State, n: nat) {
    && s.at <= s.got <= s.at + 1 && s.got <= n
    && Ordered(s.line) && Ordered(s.back)
    && (forall i :: 0 <= i < |s.line| ==> s.got <= s.line[i] + 1 && s.line[i] <= s.at && s.line[i] < n)
    && (forall i :: 0 <= i < |s.back| ==> s.at <= s.back[i] + 1 && s.back[i] < s.got)
    && (s.at == 0 ==> s.heard == -1) && (s.at > 0 ==> s.heard == Index(s.at - 1))
  }

  /** Neighbouring packets never share an index, so a repeated answer is never taken for a new one. */
  lemma Neighbours(a: nat, at: nat)
    requires a == at || a + 1 == at
    ensures Index(a) == Index(at) <==> a == at
  {}

  lemma DropKeeps(s: seq<nat>, k: nat)
    requires Ordered(s)
    ensures Ordered(Drop(s, k)) && forall i :: 0 <= i < |Drop(s, k)| ==> Drop(s, k)[i] in s
  {
    if k < |s| {
      var d := Drop(s, k);
      assert forall i :: 0 <= i < |d| ==> d[i] == s[if i < k then i else i + 1];
    }
  }

  lemma TakeKeeps(s: State, n: nat, answers: bool)
    requires Inv(s, n) && s.line != []
    ensures Inv(Step(s, n, Take(answers)), n)
  {
    var rest := s.line[1..];
    assert forall i :: 0 <= i < |rest| ==> rest[i] == s.line[i + 1];
  }

  lemma HearKeeps(s: State, n: nat)
    requires Inv(s, n) && s.back != []
    ensures Inv(Step(s, n, Hear), n)
  {
    Neighbours(s.back[0], s.at);
    var rest := s.back[1..];
    assert forall i :: 0 <= i < |rest| ==> rest[i] == s.back[i + 1];
  }

  lemma StepKeeps(s: State, n: nat, act: Act)
    requires Inv(s, n)
    ensures Inv(Step(s, n, act), n)
  {
    match act
    case Send =>
    case Take(answers) => if s.line != [] { TakeKeeps(s, n, answers); }
    case Hear => if s.back != [] { HearKeeps(s, n); }
    case LosePacket(k) => DropKeeps(s.line, k);
    case LoseAnswer(k) => DropKeeps(s.back, k);
  }

  lemma {:induction false} RunKeeps(s: State, n: nat, acts: seq<Act>)
    requires Inv(s, n)
    ensures Inv(Run(s, n, acts), n)
  {
    if acts != [] {
      RunKeeps(s, n, acts[..|acts| - 1]);
      StepKeeps(Run(s, n, acts[..|acts| - 1]), n, acts[|acts| - 1]);
    }
  }

  /**
   * However packets and answers are lost and repeated, the host is never past a packet the
   * controller has not taken; when it is done the controller has taken the whole image in order.
   */
  lemma DownloadArrives(image: seq<Byte>, total: nat, acts: seq<Act>)
    requires image != [] && total >= EndIdx(|image|)
    ensures var s := Run(Begin, total + 1, acts);
      && s.at <= s.got <= s.at + 1
      && Joined(Pkts(image, total, s.got)) <= image
      && (s.at == total + 1 ==> Joined(Pkts(image, total, s.got)) == image)
  {
    RunKeeps(Begin, total + 1, acts);
    var s := Run(Begin, total + 1, acts);
    JoinedPrefix(image, total, s.got);
    Partition(image, total);
  }

  // ----- Getting done -----

  lemma RunOne(s: State, n: nat, acts: seq<Act>, act: Act)
    ensures Run(s, n, acts + [act]) == Step(Run(s, n, acts), n, act)
  {
    assert (acts + [act])[..|acts|] == acts;
  }

  lemma {:induction false} RunConcat(s: State, n: nat, a: seq<Act>, b: seq<Act>)
    ensures Run(s, n, a + b) == Run(Run(s, n, a), n, b)
  {
    if b == [] {
      assert a + b == a;
    } else {
      var front, last := b[..|b| - 1], b[|b| - 1];
      RunConcat(s, n, a, front);
      assert b == front + [last] && a + b == (a + front) + [last];
      RunOne(s, n, a + front, last);
      RunOne(Run(s, n, a), n, front, last);
    }
  }

  /** Everything under way is lost. */
  lemma {:induction false} Cleared(s: State, n: nat) returns (acts: seq<Act>)
    ensures Run(s, n, acts) == s.(line := [], back := [])
    decreases |s.line| + |s.back|
  {
    if s.line == [] && s.back == [] {
      acts := [];
    } else {
      var act := if s.line != [] then LosePacket(0) else LoseAnswer(0);
      var t := Step(s, n, act);
      assert s.line != [] ==> t.line == s.line[1..];
      var rest := Cleared(t, n);
      RunOne(s, n, [], act);
      assert [] + [act] == [act];
      RunConcat(s, n, [act], rest);
      acts := [act] + rest;
    }
  }

  /** With nothing under way one packet is sent, taken and confirmed. */
  lemma OneAcross(s: State, n: nat) returns (acts: seq<Act>)
    requires Inv(s, n) && s.line == [] && s.back == [] && s.at < n
    ensures var t := Run(s, n, acts); Inv(t, n) && t.line == [] && t.back == [] && t.at == s.at + 1
  {
    acts := [Send] + [Take(true)] + [Hear];
    RunOne(s, n, [], Send);
    assert [] + [Send] == [Send];
    RunOne(s, n, [Send], Take(true));
    RunOne(s, n, [Send] + [Take(true)], Hear);
    var s1 := Step(s, n, Send);
    assert s1.line == [s.at];
    var s2 := Step(s1, n, Take(true));
    assert s2.back == [s.at] && s2.line == [];
    RunKeeps(s, n, acts);
  }

  lemma {:induction false} AllAcross(s: State, n: nat) returns (acts: seq<Act>)
    requires Inv(s, n) && s.line == [] && s.back == []
    ensures Run(s, n, acts).at == n
    decreases n - s.at
  {
    if s.at == n {
      acts := [];
    } else {
      var one := OneAcross(s, n);
      var rest := AllAcross(Run(s, n, one), n);
      RunConcat(s, n, one, rest);
      acts := one + rest;
    }
  }

  /** From every reachable state of a download some continuation brings the whole image across. */
  lemma DownloadPossible(image: seq<Byte>, total: nat, acts: seq<Act>) returns (more: seq<Act>)
    requires image != [] && total >= EndIdx(|image|)
    ensures var s := Run(Begin, total + 1, acts + more);
      s.at == total + 1 && Joined(Pkts(image, total, s.got)) == image
  {
    var n := total + 1;
    RunKeeps(Begin, n, acts);
    var s := Run(Begin, n, acts);
    var one := Cleared(s, n);
    RunKeeps(s, n, one);
    var two := AllAcross(Run(s, n, one), n);
    more := one + two;
    RunConcat(s, n, one, two);
    RunConcat(Begin, n, acts, more);
    DownloadArrives(image, total, acts + more);
  }
}
