/** What merging extra configuration items into the configuration read from file amounts to. */
module ConfigMerge {
  import opened Bytes

  /** One configuration item: where it is written, and the octets. */
  datatype Item = Item(offset: nat, data: seq<Byte>)

  predicate Matches(base: seq<Item>, offset: nat) {
    exists i :: 0 <= i < |base| && base[i].offset == offset
  }

  /** A shorter extra overwrites the front of an item. */
  function Overlay(n: Item, e: Item): Item
    requires |e.data| < |n.data|
  {
    n.(data := e.data + n.data[|e.data|..])
  }

  /**
   * One extra meets a list that has its offset. The first match that is longer is overwritten in
   * front; a match that is not longer makes way, and the extra stands where the last such match was.
   */
  function Absorb(base: seq<Item>, e: Item): seq<Item>
    requires Matches(base, e.offset)
  {
    var n, rest := base[0], base[1..];
    if n.offset != e.offset then LaterMatch(base, e.offset); [n] + Absorb(rest, e)
    else if |e.data| < |n.data| then [Overlay(n, e)] + rest
    else if Matches(rest, e.offset) then Absorb(rest, e)
    else [e] + rest
  }

  lemma LaterMatch(base: seq<Item>, offset: nat)
    requires Matches(base, offset) && base[0].offset != offset
    ensures Matches(base[1..], offset)
  {
    var i :| 0 <= i < |base| && base[i].offset == offset;
    assert base[1..][i - 1].offset == offset;
  }

  /** All extras in turn: the updated list, and the extras that met no match. */
  function MergeInto(base: seq<Item>, extras: seq<Item>): (seq<Item>, seq<Item>)
    decreases |extras|
  {
    if extras == [] then (base, []) else
      var e := extras[0];
      if Matches(base, e.offset) then MergeInto(Absorb(base, e), extras[1..])
      else
        var r := MergeInto(base, extras[1..]);
        (r.0, [e] + r.1)
  }

  function Merge(base: seq<Item>, extras: seq<Item>): seq<Item> {
    var r := MergeInto(base, extras);
    r.0 + r.1
  }

  // ----- Distinct offsets: every item is a fold over its extras -----

  predicate DistinctOffsets(base: seq<Item>) {
    forall i, j :: 0 <= i < j < |base| ==> base[i].offset != base[j].offset
  }

  function Combine(n: Item, e: Item): Item {
    if e.offset != n.offset then n
    else if |e.data| < |n.data| then Overlay(n, e)
    else e
  }

  function Folded(n: Item, extras: seq<Item>): Item
    decreases |extras|
  {
    if extras == [] then n else Folded(Combine(n, extras[0]), extras[1..])
  }

  function FoldAll(base: seq<Item>, extras: seq<Item>): (r: seq<Item>)
    ensures |r| == |base| && forall i :: 0 <= i < |base| ==> r[i] == Folded(base[i], extras)
  {
    seq(|base|, i requires 0 <= i < |base| => Folded(base[i], extras))
  }

  /** The extras whose offset no base item has. */
  function Unmatched(base: seq<Item>, extras: seq<Item>): seq<Item> {
    if extras == [] then []
    else if Matches(base, extras[0].offset) then Unmatched(base, extras[1..])
    else [extras[0]] + Unmatched(base, extras[1..])
  }

  function CombineAll(base: seq<Item>, e: Item): (r: seq<Item>)
    ensures |r| == |base| && forall i :: 0 <= i < |base| ==> r[i] == Combine(base[i], e)
  {
    seq(|base|, i requires 0 <= i < |base| => Combine(base[i], e))
  }

  /** With distinct offsets one extra changes exactly the item that has its offset. */
  lemma {:induction false} AbsorbDistinct(base: seq<Item>, e: Item)
    requires DistinctOffsets(base) && Matches(base, e.offset)
    ensures Absorb(base, e) == CombineAll(base, e)
  {
    var n, rest := base[0], base[1..];
    if n.offset != e.offset {
      LaterMatch(base, e.offset);
      AbsorbDistinct(rest, e);
    } else {
      assert !Matches(rest, e.offset);
    }
  }

  lemma CombineUnmatched(base: seq<Item>, e: Item)
    requires !Matches(base, e.offset)
    ensures CombineAll(base, e) == base
  {}

  lemma CombineOffsets(base: seq<Item>, e: Item)
    ensures DistinctOffsets(base) ==> DistinctOffsets(CombineAll(base, e))
    ensures forall o :: Matches(CombineAll(base, e), o) <==> Matches(base, o)
  {
    var r := CombineAll(base, e);
    forall o ensures Matches(r, o) <==> Matches(base, o) {
      if Matches(base, o) {
        var i :| 0 <= i < |base| && base[i].offset == o;
        assert r[i].offset == o;
      }
    }
  }

  lemma {:induction false} UnmatchedSame(base: seq<Item>, base': seq<Item>, extras: seq<Item>)
    requires forall o :: Matches(base, o) <==> Matches(base', o)
    ensures Unmatched(base, extras) == Unmatched(base', extras)
  {
    if extras != [] {
      UnmatchedSame(base, base', extras[1..]);
    }
  }

  lemma {:induction false} MergeIntoDistinct(base: seq<Item>, extras: seq<Item>)
    requires DistinctOffsets(base)
    ensures MergeInto(base, extras) == (FoldAll(base, extras), Unmatched(base, extras))
    decreases |extras|
  {
    if extras == [] {
      assert FoldAll(base, extras) == base;
    } else {
      var e, next := extras[0], CombineAll(base, extras[0]);
      CombineOffsets(base, e);
      UnmatchedSame(base, next, extras[1..]);
      MergeIntoDistinct(next, extras[1..]);
      assert FoldAll(base, extras) == FoldAll(next, extras[1..]);
      if Matches(base, e.offset) {
        AbsorbDistinct(base, e);
      } else {
        CombineUnmatched(base, e);
      }
    }
  }

  /**
   * For a base list with distinct offsets and any extras: every base item becomes the fold of its
   * extras in its old place, and the extras that match none follow in their order.
   */
  lemma MergeIsFold(base: seq<Item>, extras: seq<Item>)
    requires DistinctOffsets(base)
    ensures Merge(base, extras) == FoldAll(base, extras) + Unmatched(base, extras)
  {
    MergeIntoDistinct(base, extras);
  }

  // ----- What survives -----

  lemma {:induction false} FoldedConcat(n: Item, a: seq<Item>, b: seq<Item>)
    ensures Folded(n, a + b) == Folded(Folded(n, a), b)
    decreases |a|
  {
    if a == [] {
      assert a + b == b;
    } else {
      assert (a + b)[1..] == a[1..] + b;
      FoldedConcat(Combine(n, a[0]), a[1..], b);
    }
  }

  lemma {:induction false} FoldedOther(n: Item, extras: seq<Item>)
    requires !Matches(extras, n.offset)
    ensures Folded(n, extras) == n
    decreases |extras|
  {
    if extras != [] {
      forall i | 0 <= i < |extras| - 1 ensures extras[1..][i].offset != n.offset {
        assert extras[1..][i] == extras[i + 1];
      }
      FoldedOther(n, extras[1..]);
    }
  }

  lemma {:induction false} FoldedGrows(n: Item, extras: seq<Item>)
    ensures Folded(n, extras).offset == n.offset && |Folded(n, extras).data| >= |n.data|
    decreases |extras|
  {
    if extras != [] {
      FoldedGrows(Combine(n, extras[0]), extras[1..]);
    }
  }

  /** The last extra for an item wins: its octets stand at the front, and none is ever cut off. */
  lemma LastExtraWins(n: Item, before: seq<Item>, e: Item, later: seq<Item>)
    requires e.offset == n.offset && !Matches(later, n.offset)
    ensures var r := Folded(n, before + [e] + later);
      r.offset == n.offset && e.data <= r.data && |r.data| >= |n.data|
  {
    var m := Folded(n, before);
    FoldedGrows(n, before);
    FoldedConcat(n, before + [e], later);
    FoldedConcat(n, before, [e]);
    assert Folded(m, [e]) == Combine(m, e);
    FoldedOther(Combine(m, e), later);
  }

  lemma {:induction false} AbsorbOffsets(base: seq<Item>, e: Item, o: nat)
    requires Matches(base, e.offset)
    ensures Matches(Absorb(base, e), o) <==> Matches(base, o)
  {
    var n, rest, r := base[0], base[1..], Absorb(base, e);
    MatchesFirst(base, o);
    MatchesFirst(base, e.offset);
    MatchesFirst(r, o);
    if n.offset != e.offset {
      AbsorbOffsets(rest, e, o);
      assert r[1..] == Absorb(rest, e);
    } else if |e.data| < |n.data| {
      assert r[1..] == rest;
    } else if Matches(rest, e.offset) {
      AbsorbOffsets(rest, e, o);
    } else {
      assert r[1..] == rest;
    }
  }

  lemma MatchesFirst(s: seq<Item>, o: nat)
    ensures Matches(s, o) <==> s != [] && (s[0].offset == o || Matches(s[1..], o))
  {
    if s != [] && Matches(s[1..], o) {
      var i :| 0 <= i < |s[1..]| && s[1..][i].offset == o;
      assert s[i + 1].offset == o;
    }
    if Matches(s, o) && s[0].offset != o {
      LaterMatch(s, o);
    }
  }

  lemma MatchesConcat(s: seq<Item>, t: seq<Item>, o: nat)
    ensures Matches(s + t, o) <==> Matches(s, o) || Matches(t, o)
  {
    if Matches(s, o) {
      var i :| 0 <= i < |s| && s[i].offset == o;
      assert (s + t)[i].offset == o;
    }
    if Matches(t, o) {
      var i :| 0 <= i < |t| && t[i].offset == o;
      assert (s + t)[|s| + i].offset == o;
    }
  }

  /** No offset is lost and none is made up, whether or not offsets repeat. */
  lemma {:induction false} MergeOffsets(base: seq<Item>, extras: seq<Item>, o: nat)
    ensures Matches(Merge(base, extras), o) <==> Matches(base, o) || Matches(extras, o)
    decreases |extras|
  {
    if extras == [] {
      assert base + [] == base;
    } else {
      var e, rest := extras[0], extras[1..];
      MatchesFirst(extras, o);
      if Matches(base, e.offset) {
        AbsorbOffsets(base, e, o);
        MergeOffsets(Absorb(base, e), rest, o);
      } else {
        MergeOffsets(base, rest, o);
        var r := MergeInto(base, rest);
        MatchesConcat(r.0, r.1, o);
        MatchesConcat(r.0, [e] + r.1, o);
        MatchesFirst([e] + r.1, o);
      }
    }
  }

  // ----- Octet by octet -----

  /** The octet at `k` after some extras: the last of them that reaches it decides. */
  function Octet(n: Item, extras: seq<Item>, k: nat): Option<Byte> {
    if extras == [] then (if k < |n.data| then Some(n.data[k]) else None) else
      var e := extras[|extras| - 1];
      if e.offset == n.offset && k < |e.data| then Some(e.data[k]) else Octet(n, extras[..|extras| - 1], k)
  }

  lemma CombinedOctet(n: Item, e: Item, k: nat)
    ensures var r := Combine(n, e);
      && r.offset == n.offset
      && (k < |r.data| <==> k < |n.data| || (e.offset == n.offset && k < |e.data|))
      && (k < |r.data| ==> r.data[k] == if e.offset == n.offset && k < |e.data| then e.data[k] else n.data[k])
  {}

  /** An item after its extras is, octet by octet, what the last extra that reaches the octet says. */
  lemma {:induction false} LastOctetWins(n: Item, extras: seq<Item>, k: nat)
    ensures var r := Folded(n, extras);
      && r.offset == n.offset
      && Octet(n, extras, k) == if k < |r.data| then Some(r.data[k]) else None
    decreases |extras|
  {
    if extras != [] {
      var front, e := extras[..|extras| - 1], extras[|extras| - 1];
      LastOctetWins(n, front, k);
      FoldedConcat(n, front, [e]);
      assert front + [e] == extras;
      FoldedLast(Folded(n, front), e);
      CombinedOctet(Folded(n, front), e, k);
    }
  }

  lemma FoldedLast(n: Item, e: Item)
    ensures Folded(n, [e]) == Combine(n, e)
  {
    assert [e][1..] == [];
  }

  // ----- Repeated offsets -----

  /** The items of other offsets. */
  function WithoutOffset(base: seq<Item>, offset: nat): seq<Item> {
    if base == [] then []
    else if base[0].offset == offset then WithoutOffset(base[1..], offset)
    else [base[0]] + WithoutOffset(base[1..], offset)
  }

  /** Where an extra ends: the first match longer than it, or the last match if none is. */
  predicate Spot(base: seq<Item>, e: Item, j: nat) {
    && j < |base| && base[j].offset == e.offset
    && (forall i :: 0 <= i < j && base[i].offset == e.offset ==> |base[i].data| <= |e.data|)
    && (|base[j].data| > |e.data| || forall i :: j < i < |base| ==> base[i].offset != e.offset)
  }

  lemma SpotLater(base: seq<Item>, e: Item, j: nat)
    requires Spot(base, e, j) && j > 0
    ensures Spot(base[1..], e, j - 1)
  {
    var rest := base[1..];
    assert rest[j - 1] == base[j];
  }

  /** For any base list: the matches before that place make way, the one there is combined with the extra. */
  lemma {:induction false} AbsorbExactly(base: seq<Item>, e: Item, j: nat)
    requires Spot(base, e, j)
    ensures Matches(base, e.offset) && Absorb(base, e) == WithoutOffset(base[..j], e.offset) + [Combine(base[j], e)] + base[j + 1..]
    decreases j
  {
    assert base[j].offset == e.offset;
    var n, rest := base[0], base[1..];
    if j == 0 {
      assert base[..0] == [] && base[1..] == rest;
      if |e.data| >= |n.data| {
        assert !Matches(rest, e.offset);
      }
    } else {
      SpotLater(base, e, j);
      AbsorbExactly(rest, e, j - 1);
      FrontWithout(base, rest, j, e);
    }
  }

  lemma FrontWithout(base: seq<Item>, rest: seq<Item>, j: nat, e: Item)
    requires 0 < j < |base| && rest == base[1..]
    ensures WithoutOffset(base[..j], e.offset) == (if base[0].offset == e.offset then [] else [base[0]]) + WithoutOffset(rest[..j - 1], e.offset)
    ensures rest[j - 1] == base[j] && rest[j..] == base[j + 1..]
  {
    assert base[..j][1..] == rest[..j - 1];
  }
}
