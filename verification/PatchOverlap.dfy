/**
 * A small firmware file with a large image: sections are stepped by their own length and payloads are
 * taken by the snippet's, so a payload may reach over the sections that follow.
 */
module PatchOverlap {
  import opened Bytes
  import opened Patch
  import opened PatchLists

  const STEP: nat := 20
  const REACH: nat := 0x8001

  /** A section of one snippet for version 0, whose payload begins where the section ends. */
  const UNIT: seq<Byte> := [1, 0, 0, 0, 12, 0, 0, 0, 1, 0, 0, 0, 1, 0, 0, 0, 1, 128, 0, 0]

  predicate UnitAt(fw: seq<Byte>, pos: nat) {
    pos + STEP <= |fw| && fw[pos..pos + STEP] == UNIT
  }

  /** Such a section and the octets its payload reaches. */
  predicate ReachingAt(fw: seq<Byte>, pos: nat) {
    UnitAt(fw, pos) && pos + STEP + REACH <= |fw|
  }

  lemma UnitOctets(fw: seq<Byte>, pos: nat)
    requires UnitAt(fw, pos)
    ensures Le32(fw, pos) == SNIPPETS && Le32(fw, pos + 4) == 12 && Le16(fw, pos + 8) == 1
    ensures fw[pos + 12] == 1 && Le32(fw, pos + 16) == REACH
  {
    var u := fw[pos..pos + STEP];
    assert forall k :: 0 <= k < STEP ==> u[k] == fw[pos + k];
  }

  /** The one snippet of a section. */
  lemma UnitSection(fw: seq<Byte>, pos: nat) returns (x: Snippet)
    requires ReachingAt(fw, pos)
    ensures SectionAt(fw, pos) == Some([x]) && x.eco == 1 && |x.payload| == REACH
  {
    UnitOctets(fw, pos);
    var at, one := pos + 12, 1;
    x := SnippetAt(fw, at).value;
    assert SnippetsAt(fw, at + 8 + |x.payload|, 0) == Some([]);
    assert SnippetsAt(fw, at, one) == Some([x] + []);
    assert [x] + [] == [x];
  }

  lemma FirstChosen(x: Snippet, rest: seq<Snippet>)
    requires x.eco == 1
    ensures Total(Chosen([x] + rest, 0)) == |x.payload| + Total(Chosen(rest, 0))
  {
    assert ([x] + rest)[1..] == rest;
    assert ([x] + Chosen(rest, 0))[1..] == Chosen(rest, 0);
  }

  /** `n` such sections, one after the other. */
  predicate Row(fw: seq<Byte>, pos: nat, n: nat) {
    forall i :: 0 <= i < n ==> ReachingAt(fw, pos + i * STEP)
  }

  lemma RowRest(fw: seq<Byte>, pos: nat, n: nat)
    requires Row(fw, pos, n) && n > 0
    ensures ReachingAt(fw, pos) && Row(fw, pos + STEP, n - 1)
  {
    assert ReachingAt(fw, pos + 0 * STEP);
    forall i | 0 <= i < n - 1 ensures ReachingAt(fw, pos + STEP + i * STEP) {
      assert ReachingAt(fw, pos + (i + 1) * STEP);
    }
  }

  lemma FirstOfRow(fw: seq<Byte>, pos: nat, n: nat, rest: seq<Snippet>)
    requires n > 0 && ReachingAt(fw, pos) && SectionsAt(fw, pos + STEP, n - 1) == Some(rest)
    ensures SectionsAt(fw, pos, n).Some? && Total(Chosen(SectionsAt(fw, pos, n).value, 0)) == REACH + Total(Chosen(rest, 0))
  {
    UnitOctets(fw, pos);
    var x := UnitSection(fw, pos);
    assert SectionsAt(fw, pos, n) == Some([x] + rest);
    FirstChosen(x, rest);
  }

  /** Together the payloads are as long as if they did not overlap. */
  lemma {:induction false} RowTotal(fw: seq<Byte>, pos: nat, n: nat)
    requires Row(fw, pos, n)
    ensures SectionsAt(fw, pos, n).Some? && Total(Chosen(SectionsAt(fw, pos, n).value, 0)) == n * REACH
    decreases n
  {
    if n > 0 {
      RowRest(fw, pos, n);
      RowTotal(fw, pos + STEP, n - 1);
      FirstOfRow(fw, pos, n, SectionsAt(fw, pos + STEP, n - 1).value);
    }
  }

  function Units(n: nat): (r: seq<Byte>)
    ensures |r| == n * STEP
  {
    if n == 0 then [] else Units(n - 1) + UNIT
  }

  lemma Before(a: seq<Byte>, b: seq<Byte>, from: nat, to: nat)
    requires from <= to <= |a|
    ensures (a + b)[from..to] == a[from..to]
  {}

  lemma Behind(a: seq<Byte>, b: seq<Byte>, from: nat, to: nat)
    requires from == |a| && to == |a| + |b|
    ensures (a + b)[from..to] == b
  {}

  lemma {:induction false} UnitsAt(n: nat, i: nat)
    requires i < n
    ensures (i + 1) * STEP <= |Units(n)| && Units(n)[i * STEP..(i + 1) * STEP] == UNIT
  {
    var front, from, to := Units(n - 1), i * STEP, (i + 1) * STEP;
    if i == n - 1 {
      Behind(front, UNIT, from, to);
    } else {
      UnitsAt(n - 1, i);
      Before(front, UNIT, from, to);
    }
  }

  /** Any 16 octets, the number of sections, the sections, and as many octets as the last payload reaches. */
  function Overlapping(head: seq<Byte>, tail: seq<Byte>, n: nat): (fw: seq<Byte>)
    requires |head| == 16 && |tail| == REACH && n < 0x10000
    ensures |fw| == FIRST_SECTION + n * STEP + REACH
  {
    head + [n % 256, n / 256, 0, 0] + Units(n) + tail
  }

  lemma Middle20(a: seq<Byte>, b: seq<Byte>, c: seq<Byte>, from: nat, to: nat)
    requires from <= to <= |b|
    ensures (a + b + c)[|a| + from..|a| + to] == b[from..to]
  {}

  lemma OverlappingRow(head: seq<Byte>, tail: seq<Byte>, n: nat)
    requires |head| == 16 && |tail| == REACH && n < 0x10000
    ensures var fw := Overlapping(head, tail, n); Le16(fw, 16) == n && Row(fw, FIRST_SECTION, n)
  {
    var start := head + [n % 256, n / 256, 0, 0];
    var fw := Overlapping(head, tail, n);
    assert fw[16] == n % 256 && fw[17] == n / 256;
    forall i | 0 <= i < n ensures ReachingAt(fw, FIRST_SECTION + i * STEP) {
      UnitsAt(n, i);
      Middle20(start, Units(n), tail, i * STEP, (i + 1) * STEP);
    }
  }

  /** For every number of sections the chosen payloads come to that many times 32769 octets. */
  lemma OverlappingTotal(head: seq<Byte>, tail: seq<Byte>, n: nat)
    requires |head| == 16 && |tail| == REACH && n < 0x10000
    ensures ChosenTotal(Overlapping(head, tail, n), 0) == Some(n * REACH)
  {
    OverlappingRow(head, tail, n);
    RowTotal(Overlapping(head, tail, n), FIRST_SECTION, n);
  }

  /**
   * A file of 1343489 octets, whatever stands before and behind its 65535 sections, whose image is
   * specified and is not made.
   */
  lemma TooLargeImage(head: seq<Byte>, tail: seq<Byte>, config: seq<Byte>, n: nat)
    requires |head| == 16 && |tail| == REACH && |config| < I31 && n == 65535
    ensures var fw := Overlapping(head, tail, n);
      && |fw| == 1343489 && Image(fw, 0, config).Some?
      && Built(fw, 0, config) != Made(Image(fw, 0, config).value)
      && (|config| < 0x10000 ==> Built(fw, 0, config) == NoImage)
  {
    OverlappingTotal(head, tail, n);
    NotMade(Overlapping(head, tail, n), 0, config, n * REACH);
  }

  lemma NotMade(fw: seq<Byte>, ev: Byte, config: seq<Byte>, total: nat)
    requires ChosenTotal(fw, ev) == Some(total) && I31 <= total && |config| < I31
    ensures Image(fw, ev, config).Some? && Built(fw, ev, config) != Made(Image(fw, ev, config).value)
    ensures total + |config| < U32 ==> Built(fw, ev, config) == NoImage
  {
    BuiltExactly(fw, ev, config);
    if total + |config| < U32 {
      BuiltLarge(fw, ev, config, total);
    }
  }

  /** A sum that is negative as a signed number, and stays so with the configuration, gets no memory. */
  lemma BuiltLarge(fw: seq<Byte>, ev: Byte, config: seq<Byte>, total: nat)
    requires ChosenTotal(fw, ev) == Some(total) && I31 <= total && total + |config| < U32
    ensures Built(fw, ev, config) == NoImage
  {
    Add32Zero(total);
  }
}
