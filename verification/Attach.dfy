/** The attach program's own H5 numbering, up to handing the link over to the driver. */
module Attach {
  import opened Bytes
  import opened Download
  import H5Link

  /** Before the download: a command goes out once, or a command complete event comes in. */
  datatype Event = Command(op: nat) | Complete(op: nat, status: Byte)

  /** The next sequence number, the 16-bit count of answered commands, and the command waited for. */
  datatype Numbers = Numbers(txseq: Seqno, counted: nat, op: nat)

  const READ_LOCAL_VER: nat := 0x1001
  const READ_BD_ADDR: nat := 0x1009
  const CHANGE_BAUD: nat := 0xfc17
  const VENDOR_READ: nat := 0xfc61
  const READ_ROM_VER: nat := 0xfc6d

  /** The commands whose completion is counted. */
  predicate Counts(op: nat) {
    op == READ_LOCAL_VER || op == READ_BD_ADDR || op == CHANGE_BAUD || op == VENDOR_READ || op == READ_ROM_VER
  }

  /** Whether a completion is counted: it succeeds, is for the command waited for, and is of a counted kind. */
  predicate Counted(a: Numbers, e: Event) {
    e.Complete? && e.status == 0 && e.op == a.op && Counts(e.op)
  }

  function On(a: Numbers, e: Event): Numbers {
    if e.Command? then a.(txseq := Succ(a.txseq), op := e.op)
    else if Counted(a, e) then a.(counted := (a.counted + 1) % 0x10000)
    else a
  }

  function Run(a: Numbers, es: seq<Event>): Numbers {
    if es == [] then a else On(Run(a, es[..|es| - 1]), es[|es| - 1])
  }

  /** Commands sent, and completions counted. */
  function Commands(es: seq<Event>): nat {
    if es == [] then 0 else Commands(es[..|es| - 1]) + if es[|es| - 1].Command? then 1 else 0
  }

  function Answers(a: Numbers, es: seq<Event>): nat {
    if es == [] then 0 else
      var most := es[..|es| - 1];
      Answers(a, most) + if Counted(Run(a, most), es[|es| - 1]) then 1 else 0
  }

  const START: Numbers := Numbers(0, 0, 0)

  lemma Up8(x: nat)
    ensures Succ(x % 8) == (x + 1) % 8
  {}

  lemma Up16(x: nat)
    ensures (x % 0x10000 + 1) % 0x10000 == (x + 1) % 0x10000
  {}

  lemma {:induction false} RunCounts(es: seq<Event>)
    ensures Run(START, es).txseq == Commands(es) % 8
    ensures Run(START, es).counted == Answers(START, es) % 0x10000
  {
    if es != [] {
      RunCounts(es[..|es| - 1]);
      Up8(Commands(es[..|es| - 1]));
      Up16(Answers(START, es[..|es| - 1]));
    }
  }

  /** The number `n` after `t`. */
  function Later(t: Seqno, n: nat): Seqno {
    (t + n) % 8
  }

  /** The number after the download of `size` octets and the reset: each packet and the reset take one. */
  function AtHandOver(a: Numbers, size: nat): Seqno
    requires size >= 1
  {
    Later(a.txseq, Last(a.counted, size, true) + 2)
  }

  lemma LastFills(counted: nat, size: nat)
    requires size >= 1
    ensures (counted + (Last(counted, size, true) + 2)) % 8 == 0
  {}

  lemma PlusMod8(x: nat, z: nat)
    ensures (x + z) % 8 == (x % 8 + z % 8) % 8
  {}

  lemma OneNumber(s: nat, a: nat, z: nat)
    requires s < 8 && a < 8 && z < 8 && (a + z) % 8 == 0
    ensures (s + z) % 8 == 0 <==> s == a
  {}

  lemma Agree8(s: Seqno, a: nat, z: nat)
    requires (a + z) % 8 == 0
    ensures Later(s, z) == 0 <==> s == a % 8
  {
    PlusMod8(a, z);
    PlusMod8(s, z);
    OneNumber(s, a % 8, z % 8);
  }

  lemma Agree(sent: nat, answered: nat, z: nat)
    requires (answered % 0x10000 + z) % 8 == 0
    ensures Later(sent % 8, z) == 0 <==> sent % 8 == answered % 8
  {
    Narrow(answered);
    Agree8(sent % 8, answered % 0x10000, z);
  }

  /**
   * The driver finds the number it starts with, zero, exactly if the commands sent and the
   * completions counted agree modulo eight, whatever the image size.
   */
  lemma HandOver(es: seq<Event>, size: nat, useCrc: bool)
    requires size >= 1
    ensures AtHandOver(Run(START, es), size) == H5Link.Opened(useCrc).txseq
       <==> Commands(es) % 8 == Answers(START, es) % 8
  {
    RunCounts(es);
    var a := Run(START, es);
    LastFills(a.counted, size);
    Agree(Commands(es), Answers(START, es), Last(a.counted, size, true) + 2);
  }

  /** Every command is of a counted kind and is answered once, with success, before the next one. */
  predicate AnsweredOnce(es: seq<Event>) {
    es == [] ||
    (|es| >= 2 &&
      var n := |es| - 2;
      es[n].Command? && Counts(es[n].op) && es[n + 1] == Complete(es[n].op, 0) && AnsweredOnce(es[..n]))
  }

  lemma {:induction false} AnsweredOnceCounts(es: seq<Event>)
    requires AnsweredOnce(es)
    ensures Commands(es) == Answers(START, es)
  {
    if es != [] {
      var n := |es| - 2;
      AnsweredOnceCounts(es[..n]);
      var most := es[..n + 1];
      assert es[..|es| - 1] == most && most[..n] == es[..n];
      assert Run(START, most) == On(Run(START, es[..n]), es[n]);
      assert Commands(es) == Commands(most) && Commands(most) == Commands(es[..n]) + 1;
    }
  }

  /** So the normal dialogue always ends at zero. */
  lemma NormalHandOver(es: seq<Event>, size: nat, useCrc: bool)
    requires size >= 1 && AnsweredOnce(es)
    ensures AtHandOver(Run(START, es), size) == H5Link.Opened(useCrc).txseq
  {
    AnsweredOnceCounts(es);
    HandOver(es, size, useCrc);
  }

  /** A command whose answer is seen twice breaks it, for every image. */
  lemma AnsweredTwice(size: nat)
    requires size >= 1
    ensures var es := [Command(READ_ROM_VER), Complete(READ_ROM_VER, 0), Complete(READ_ROM_VER, 0)];
      AtHandOver(Run(START, es), size) != H5Link.Opened(false).txseq
  {
    var es := [Command(READ_ROM_VER), Complete(READ_ROM_VER, 0), Complete(READ_ROM_VER, 0)];
    var two, one := es[..2], es[..1];
    assert two[..1] == one && one[..0] == [];
    assert Commands(one) == 1 && Answers(START, one) == 0 && Run(START, one) == On(START, es[0]);
    assert Commands(two) == 1 && Answers(START, two) == 1 && Run(START, two) == On(On(START, es[0]), es[1]);
    assert Commands(es) == 1 && Answers(START, es) == 2;
    HandOver(es, size, false);
  }

  /** The object the event handler and the sending routines update. */
  class Host {
    var txseq: Seqno
    var counted: nat
    var op: nat

    function View(): Numbers
      reads this
    {
      Numbers(txseq, counted, op)
    }

    constructor ()
      ensures View() == START
    {
      txseq, counted, op := 0, 0, 0;
    }

    /** Framing a reliable packet takes a number. */
    method PreparePkt()
      modifies this`txseq
      ensures txseq == Succ(old(txseq))
    {
      txseq := (txseq + 1) % 8;
    }

    method SendCommand(code: nat)
      modifies this
      ensures View() == On(old(View()), Command(code))
    {
      PreparePkt();
      op := code;
    }

    method InitCc(code: nat, status: Byte)
      modifies this
      ensures View() == On(old(View()), Complete(code, status))
    {
      if status != 0 {
        return;
      }
      if op != code {
        return;
      }
      if Counts(code) {
        counted := (counted + 1) % 0x10000;
      }
    }

    /** Framing `n` packets. */
    method PreparePkts(n: nat)
      modifies this`txseq
      ensures txseq == Later(old(txseq), n)
    {
      for i := 0 to n
        invariant txseq == Later(old(txseq), i)
      {
        Up8(old(txseq) + i);
        PreparePkt();
      }
    }

    /** Downloads an image, and resets if every packet was confirmed. */
    method DownloadAndReset(image: seq<Byte>, answers: nat -> bool) returns (r: Outcome)
      requires image != [] && counted < 0x10000
      modifies this`txseq
      ensures ComesTo(r, Cut(image), Last(counted, |Cut(image)|, true), answers)
      ensures r.Sent? && Joined(r.sent) == image
         <==> Last(counted, |image|, true) < 0xffff && Confirmed(answers, Last(counted, |image|, true) + 1)
      ensures txseq == if r.Sent? then AtHandOver(old(View()), |Cut(image)|) else Later(old(txseq), |r.sent|)
    {
      r := Download.Download(image, counted, true, answers);
      PreparePkts(|r.sent|);
      if r.Sent? {
        HandOverIs(old(View()), |Cut(image)|, |r.sent|, Last(counted, |Cut(image)|, true));
        PreparePkt();
      }
    }
  }

  /** As many numbers are taken whether or not the loop's bound has wrapped. */
  lemma LaterWrapped(t: Seqno, last: nat)
    ensures Later(t, Rounds(last) + 1) == Later(t, last + 2)
  {
    Narrow(last);
    PlusMod8(t + last % 0x10000, 2);
    PlusMod8(t + last, 2);
    PlusMod8(t, last % 0x10000);
    PlusMod8(t, last);
  }

  /** The hand-over number comes after the numbers of the packets and that of the reset. */
  lemma HandOverIs(a: Numbers, size: nat, n: nat, last: nat)
    requires size >= 1 && last == Last(a.counted, size, true) && n == Rounds(last)
    ensures AtHandOver(a, size) == Succ(Later(a.txseq, n))
  {
    LaterWrapped(a.txseq, last);
    Up8(a.txseq + n);
  }

  /** Which answers are counted: to five commands, if they succeed and are for the command sent last. */
  lemma AnswersCounted(before: seq<Event>, op: nat, code: nat, status: Byte)
    ensures var es := before + [Command(op)];
      Answers(START, es + [Complete(code, status)]) == Answers(START, before) +
        if status == 0 && code == op && (op == 0x1001 || op == 0x1009 || op == 0xfc17 || op == 0xfc61 || op == 0xfc6d) then 1 else 0
  {
    var es := before + [Command(op)];
    var all := es + [Complete(code, status)];
    assert all[..|es|] == es && es[..|before|] == before;
    assert Run(START, es) == On(Run(START, before), Command(op));
  }
}
