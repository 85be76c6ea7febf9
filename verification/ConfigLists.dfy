/** Merging on the linked lists themselves, in place. */
module ConfigLists {
  import opened Bytes
  import opened Ring
  import opened ConfigMerge

  type Entry = Node<Item>

  ghost predicate Disjoint(c: seq<Entry>, x: seq<Entry>) {
    forall i, j :: 0 <= i < |c| && 0 <= j < |x| ==> c[i] != x[j]
  }

  /** Two lists that share no entry. */
  ghost predicate Apart(c: seq<Entry>, x: seq<Entry>)
    reads c, x
  {
    IsRing(c) && IsRing(x) && Disjoint(c, x)
  }

  // ----- One extra against the base list: the outcome still to come -----

  /**
   * What the list will be: `pre` and `mid` were walked past, the extra stands between them if it
   * was placed, and `rest` is still to be looked at.
   */
  function Pending(pre: seq<Item>, placed: bool, mid: seq<Item>, rest: seq<Item>, e: Item): seq<Item> {
    if Matches(rest, e.offset) then pre + mid + Absorb(rest, e)
    else pre + (if placed then [e] else []) + mid + rest
  }

  lemma PendingSkip(pre: seq<Item>, placed: bool, mid: seq<Item>, r: Item, rest: seq<Item>, e: Item)
    requires r.offset != e.offset
    ensures Pending(pre, placed, mid, [r] + rest, e) == Pending(pre, placed, mid + [r], rest, e)
  {
    MatchesFirst([r] + rest, e.offset);
    assert ([r] + rest)[1..] == rest;
    if Matches(rest, e.offset) {
      assert pre + mid + ([r] + Absorb(rest, e)) == pre + (mid + [r]) + Absorb(rest, e);
    }
  }

  lemma PendingOverlay(pre: seq<Item>, placed: bool, mid: seq<Item>, r: Item, rest: seq<Item>, e: Item)
    requires r.offset == e.offset && |e.data| < |r.data|
    ensures Pending(pre, placed, mid, [r] + rest, e) == pre + mid + [Overlay(r, e)] + rest
  {
    MatchesFirst([r] + rest, e.offset);
    assert ([r] + rest)[1..] == rest;
  }

  lemma PendingPlace(pre: seq<Item>, placed: bool, mid: seq<Item>, r: Item, rest: seq<Item>, e: Item)
    requires r.offset == e.offset && |e.data| >= |r.data|
    ensures Pending(pre, placed, mid, [r] + rest, e) == Pending(pre + mid, true, [], rest, e)
  {
    MatchesFirst([r] + rest, e.offset);
    assert ([r] + rest)[1..] == rest;
    if Matches(rest, e.offset) {
      assert pre + mid + [] + Absorb(rest, e) == pre + mid + Absorb(rest, e);
    } else {
      assert pre + mid + [e] + [] + rest == pre + mid + ([e] + rest);
    }
  }

  // ----- The same by positions in the walk -----

  /**
   * `ic` are the items along a walk of the base list, the head's at both ends. The walk is at `p`,
   * and the extra stands at `q` if it was placed.
   */
  function Outlook(ic: seq<Item>, placed: bool, q: nat, p: nat, e: Item): seq<Item>
    requires 0 < p < |ic| && (if placed then 0 < q < p else q == 0)
  {
    Pending(ic[1..if placed then q else 1], placed, ic[q + 1..p], ic[p..|ic| - 1], e)
  }

  lemma OutlookStart(ic: seq<Item>, e: Item)
    requires |ic| >= 2
    ensures Outlook(ic, false, 0, 1, e) == if Matches(Middle(ic), e.offset) then Absorb(Middle(ic), e) else Middle(ic)
  {}

  lemma OutlookEnd(ic: seq<Item>, placed: bool, q: nat, e: Item)
    requires |ic| >= 2 && (if placed then 0 < q < |ic| - 1 && ic[q] == e else q == 0)
    ensures Outlook(ic, placed, q, |ic| - 1, e) == Middle(ic)
  {
    var p := |ic| - 1;
    assert ic[p..p] == [];
  }

  lemma OutlookSkip(ic: seq<Item>, placed: bool, q: nat, p: nat, e: Item)
    requires 0 < p < |ic| - 1 && (if placed then 0 < q < p else q == 0) && ic[p].offset != e.offset
    ensures Outlook(ic, placed, q, p, e) == Outlook(ic, placed, q, p + 1, e)
  {
    assert ic[p..|ic| - 1] == [ic[p]] + ic[p + 1..|ic| - 1];
    assert ic[q + 1..p + 1] == ic[q + 1..p] + [ic[p]];
    PendingSkip(ic[1..if placed then q else 1], placed, ic[q + 1..p], ic[p], ic[p + 1..|ic| - 1], e);
  }

  /** The walk after the extra is taken out of it, if it was in it. */
  function Freed(ic: seq<Item>, placed: bool, q: nat): seq<Item>
    requires placed ==> q < |ic|
  {
    if placed then ic[..q] + ic[q + 1..] else ic
  }

  lemma FreedSlices(ic: seq<Item>, placed: bool, q: nat, p: nat, p': nat)
    requires 0 < p < |ic| - 1 && (if placed then 0 < q < p else q == 0) && p' == (if placed then p - 1 else p)
    ensures var id := Freed(ic, placed, q);
      && 0 < p' < |id| - 1 && id[p'] == ic[p]
      && id[1..p'] == ic[1..if placed then q else 1] + ic[q + 1..p]
      && id[p' + 1..|id| - 1] == ic[p + 1..|ic| - 1]
  {}

  lemma Cut(ic: seq<Item>, p: nat)
    requires 0 < p < |ic| - 1
    ensures ic[p..|ic| - 1] == [ic[p]] + ic[p + 1..|ic| - 1]
    ensures Middle(ic) == ic[1..p] + [ic[p]] + ic[p + 1..|ic| - 1]
  {}

  lemma Put(ic: seq<Item>, p: nat, e: Item)
    requires 0 < p < |ic| - 1
    ensures ic[p := e][1..p] == ic[1..p] && ic[p := e][p + 1..|ic| - 1] == ic[p + 1..|ic| - 1]
    ensures Middle(ic[p := e]) == ic[1..p] + [e] + ic[p + 1..|ic| - 1]
  {
    Cut(ic[p := e], p);
  }

  lemma OutlookHere(ic: seq<Item>, placed: bool, q: nat, p: nat, e: Item)
    requires 0 < p < |ic| - 1 && (if placed then 0 < q < p else q == 0)
    ensures Outlook(ic, placed, q, p, e)
         == Pending(ic[1..if placed then q else 1], placed, ic[q + 1..p], [ic[p]] + ic[p + 1..|ic| - 1], e)
  {
    Cut(ic, p);
  }

  lemma OutlookPlaced(ic: seq<Item>, p: nat, e: Item, pre: seq<Item>, rest: seq<Item>)
    requires 0 < p < |ic| - 1 && pre == ic[1..p] && rest == ic[p + 1..|ic| - 1]
    ensures Outlook(ic[p := e], true, p, p + 1, e) == Pending(pre, true, [], rest, e)
  {
    Put(ic, p, e);
    assert ic[p := e][p + 1..p + 1] == [];
  }

  lemma OutlookOverlay(ic: seq<Item>, placed: bool, q: nat, p: nat, e: Item, p': nat)
    requires 0 < p < |ic| - 1 && (if placed then 0 < q < p else q == 0) && p' == (if placed then p - 1 else p)
    requires ic[p].offset == e.offset && |e.data| < |ic[p].data|
    ensures p' < |Freed(ic, placed, q)|
    ensures Outlook(ic, placed, q, p, e) == Middle(Freed(ic, placed, q)[p' := Overlay(ic[p], e)])
  {
    OutlookHere(ic, placed, q, p, e);
    PendingOverlay(ic[1..if placed then q else 1], placed, ic[q + 1..p], ic[p], ic[p + 1..|ic| - 1], e);
    FreedSlices(ic, placed, q, p, p');
    Put(Freed(ic, placed, q), p', Overlay(ic[p], e));
  }

  lemma OutlookPlace(ic: seq<Item>, placed: bool, q: nat, p: nat, e: Item, p': nat)
    requires 0 < p < |ic| - 1 && (if placed then 0 < q < p else q == 0) && p' == (if placed then p - 1 else p)
    requires ic[p].offset == e.offset && |e.data| >= |ic[p].data|
    ensures p' < |Freed(ic, placed, q)| - 1
    ensures Outlook(ic, placed, q, p, e) == Outlook(Freed(ic, placed, q)[p' := e], true, p', p' + 1, e)
  {
    OutlookHere(ic, placed, q, p, e);
    PendingPlace(ic[1..if placed then q else 1], placed, ic[q + 1..p], ic[p], ic[p + 1..|ic| - 1], e);
    FreedSlices(ic, placed, q, p, p');
    OutlookPlaced(Freed(ic, placed, q), p', e, ic[1..if placed then q else 1] + ic[q + 1..p], ic[p + 1..|ic| - 1]);
  }

  // ----- On the lists -----

  lemma WithoutApart(c: seq<Entry>, x: seq<Entry>, k: nat)
    requires Disjoint(c, x) && 0 < k < |c| - 1 && Distinct(c)
    ensures Disjoint(Without(c, k), x) && c[k] !in Without(c, k) && c[k] !in x
  {
    WithoutAt(c, k);
  }

  /** Takes an entry out of one of two lists. */
  method TakeOut(e: Entry, ghost c: seq<Entry>, ghost ic: seq<Item>, ghost k: nat, ghost x: seq<Entry>, ghost ix: seq<Item>)
    requires Apart(c, x) && Shows(c, ic) && Shows(x, ix) && 0 < k < |c| - 1 && c[k] == e
    modifies c
    ensures Apart(Without(c, k), x) && e !in Without(c, k) && e !in x && e.item == old(e.item)
    ensures Shows(Without(c, k), ic[..k] + ic[k + 1..]) && Shows(x, ix)
  {
    WithoutApart(c, x, k);
    ListDel(e, c, k);
    WithoutShows(c, ic, k);
  }

  lemma Swap(c: seq<Entry>, x: seq<Entry>)
    requires Disjoint(c, x)
    ensures Disjoint(x, c)
  {}

  function Cutout(ic: seq<Item>, k: nat): seq<Item>
    requires k < |ic|
  {
    ic[..k] + ic[k + 1..]
  }

  /** Where the extra is: placed in the base list at `q` before `p`, or in the extras at `j`. */
  ghost predicate Located(epos: Entry, d: seq<Entry>, y: seq<Entry>, placed: bool, q: nat, j: nat, p: nat) {
    && 0 < p < |d|
    && if placed then 0 < q < p && d[q] == epos else q == 0 && 0 < j < |y| - 1 && y[j] == epos
  }

  ghost predicate Within(d: seq<Entry>, c: seq<Entry>, epos: Entry) {
    forall i :: 0 <= i < |d| ==> d[i] in c || d[i] == epos
  }

  /** The base walk without the extra. */
  ghost function Loose(d: seq<Entry>, placed: bool, q: nat): seq<Entry>
    requires placed ==> q < |d|
  {
    if placed then Without(d, q) else d
  }

  lemma LooseAt(d: seq<Entry>, placed: bool, q: nat, p: nat, p': nat, epos: Entry)
    requires 0 < p < |d| - 1 && (if placed then 0 < q < p else q == 0) && p' == (if placed then p - 1 else p)
    ensures var m := Loose(d, placed, q);
      && 0 < p' && |m| - p' == |d| - p && m[p'] == d[p] && m[p' + 1] == d[p + 1] && m[0] == d[0]
      && Within(m, d, epos) && Within(m[p' := epos], d, epos)
  {}

  /** The extras without the extra. */
  ghost function Rest(y: seq<Entry>, placed: bool, j: nat): seq<Entry>
    requires !placed ==> j < |y|
  {
    if placed then y else Without(y, j)
  }

  ghost function RestItems(iy: seq<Item>, placed: bool, j: nat): seq<Item>
    requires !placed ==> j < |iy|
  {
    if placed then iy else Cutout(iy, j)
  }

  /** Takes the extra out of the list it is in: the base list if it was placed there, else the extras. */
  method Detach(epos: Entry, ghost d: seq<Entry>, ghost id: seq<Item>, ghost y: seq<Entry>, ghost iy: seq<Item>,
                ghost placed: bool, ghost q: nat, ghost j: nat)
    requires Apart(d, y) && Shows(d, id) && Shows(y, iy)
    requires if placed then 0 < q < |d| - 1 && d[q] == epos else 0 < j < |y| - 1 && y[j] == epos
    modifies d, y
    ensures Apart(Loose(d, placed, q), Rest(y, placed, j)) && epos.item == old(epos.item)
    ensures Shows(Loose(d, placed, q), Freed(id, placed, q)) && Shows(Rest(y, placed, j), RestItems(iy, placed, j))
    ensures epos !in Loose(d, placed, q) && epos !in Rest(y, placed, j)
  {
    Swap(d, y);
    if placed {
      assert Apart(d, y);
    } else {
      assert Apart(y, d);
    }
    TakeOut(epos, if placed then d else y, if placed then id else iy, if placed then q else j,
            if placed then y else d, if placed then iy else id);
    if !placed {
      Swap(Without(y, j), d);
    }
  }

  /** Puts the extra, which is in no list, in the place of a base entry. */
  method Place(pos: Entry, epos: Entry, ghost d: seq<Entry>, ghost id: seq<Item>, ghost p: nat,
               ghost y: seq<Entry>, ghost iy: seq<Item>)
    requires Apart(d, y) && Shows(d, id) && Shows(y, iy) && 0 < p < |d| - 1 && d[p] == pos
    requires epos !in d && epos !in y
    modifies d, epos
    ensures Apart(d[p := epos], y) && Shows(d[p := epos], id[p := old(epos.item)]) && Shows(y, iy)
    ensures epos.item == old(epos.item)
  {
    ListReplaceInit(pos, epos, d, p);
  }

  lemma FreedPut(ic: seq<Item>, placed: bool, q: nat, p: nat, v: Item, p': nat)
    requires 0 < p < |ic| - 1 && (if placed then 0 < q < p else q == 0) && p' == (if placed then p - 1 else p)
    ensures p' < |Freed(ic, placed, q)| && Freed(ic[p := v], placed, q) == Freed(ic, placed, q)[p' := v]
  {}

  /** A match that is longer: its front is overwritten and the extra is dropped. */
  method Update(pos: Entry, epos: Entry, ghost d: seq<Entry>, ghost id: seq<Item>, ghost y: seq<Entry>, ghost iy: seq<Item>,
                ghost placed: bool, ghost q: nat, ghost j: nat, ghost p: nat)
    returns (ghost id': seq<Item>)
    requires Apart(d, y) && Shows(d, id) && Shows(y, iy)
    requires Located(epos, d, y, placed, q, j, p) && p < |d| - 1 && d[p] == pos
    requires pos.item.offset == epos.item.offset && |epos.item.data| < |pos.item.data|
    modifies d, y
    ensures Apart(Loose(d, placed, q), Rest(y, placed, j))
    ensures Shows(Loose(d, placed, q), id') && Shows(Rest(y, placed, j), RestItems(iy, placed, j))
    ensures Middle(id') == Outlook(id, placed, q, p, old(epos.item))
  {
    ghost var e, v, p' := epos.item, Overlay(pos.item, epos.item), if placed then p - 1 else p;
    pos.item := Overlay(pos.item, epos.item);
    assert Shows(d, id[p := v]);
    Detach(epos, d, id[p := v], y, iy, placed, q, j);
    id' := Freed(id[p := v], placed, q);
    OutlookOverlay(id, placed, q, p, e, p');
    FreedPut(id, placed, q, p, v, p');
  }

  /** A match that is not longer: the extra takes its place, leaving the one it had. */
  method Migrate(pos: Entry, epos: Entry, ghost d: seq<Entry>, ghost id: seq<Item>, ghost y: seq<Entry>, ghost iy: seq<Item>,
                 ghost placed: bool, ghost q: nat, ghost j: nat, ghost p: nat)
    returns (ghost p': nat)
    requires Apart(d, y) && Shows(d, id) && Shows(y, iy)
    requires Located(epos, d, y, placed, q, j, p) && p < |d| - 1 && d[p] == pos
    modifies d, y
    ensures p' == (if placed then p - 1 else p) && epos.item == old(epos.item)
    ensures p' < |Loose(d, placed, q)| == |Freed(id, placed, q)|
    ensures Apart(Loose(d, placed, q)[p' := epos], Rest(y, placed, j))
    ensures Shows(Loose(d, placed, q)[p' := epos], Freed(id, placed, q)[p' := epos.item])
    ensures Shows(Rest(y, placed, j), RestItems(iy, placed, j))
  {
    p' := if placed then p - 1 else p;
    LooseAt(d, placed, q, p, p', epos);
    Detach(epos, d, id, y, iy, placed, q, j);
    Place(pos, epos, Loose(d, placed, q), Freed(id, placed, q), p', Rest(y, placed, j), RestItems(iy, placed, j));
  }

  lemma MatchAt(ic: seq<Item>, p: nat, o: nat)
    requires 0 < p < |ic| - 1 && ic[p].offset == o
    ensures Matches(Middle(ic), o)
  {
    assert Middle(ic)[p - 1].offset == o;
  }

  /** A walk under way: both lists with their items, where the extra is, and the place reached. */
  datatype Walk = Walk(d: seq<Entry>, id: seq<Item>, y: seq<Entry>, iy: seq<Item>, placed: bool, q: nat, p: nat)

  /** The lists are sound and the extra is where the walk says. */
  ghost predicate Sound(w: Walk, epos: Entry, j: nat)
    reads w.d, w.y
  {
    && Apart(w.d, w.y) && Shows(w.d, w.id) && Shows(w.y, w.iy)
    && Located(epos, w.d, w.y, w.placed, w.q, j, w.p)
  }

  ghost predicate WalkOk(w: Walk) {
    0 < w.p < |w.id| && if w.placed then 0 < w.q < w.p else w.q == 0
  }

  /** The walk one place on, past an entry with another offset. */
  ghost function Skipped(w: Walk): Walk {
    w.(p := w.p + 1)
  }

  /** The walk one place on, with the extra in the place it was at. */
  ghost function Met(w: Walk, epos: Entry, e: Item, j: nat): Walk
    requires WalkOk(w) && w.p < |w.id| - 1 && |w.d| == |w.id| && |w.y| == |w.iy| && (!w.placed ==> j < |w.y|)
  {
    var p := if w.placed then w.p - 1 else w.p;
    Walk(Loose(w.d, w.placed, w.q)[p := epos], Freed(w.id, w.placed, w.q)[p := e],
         Rest(w.y, w.placed, j), RestItems(w.iy, w.placed, j), true, p, p + 1)
  }

  /** What the base list will be when the walk is over. */
  ghost function Future(w: Walk, e: Item): seq<Item>
    requires WalkOk(w)
  {
    Outlook(w.id, w.placed, w.q, w.p, e)
  }

  lemma SkippedFuture(w: Walk, e: Item)
    requires WalkOk(w) && w.p < |w.id| - 1 && w.id[w.p].offset != e.offset
    ensures Future(w, e) == Future(Skipped(w), e)
  {
    OutlookSkip(w.id, w.placed, w.q, w.p, e);
  }

  lemma MetOk(w: Walk, epos: Entry, e: Item, j: nat)
    requires WalkOk(w) && w.p < |w.id| - 1 && |w.d| == |w.id| && |w.y| == |w.iy| && (!w.placed ==> j < |w.y|)
    ensures WalkOk(Met(w, epos, e, j))
  {}

  lemma MetFuture(w: Walk, epos: Entry, e: Item, j: nat)
    requires WalkOk(w) && w.p < |w.id| - 1 && |w.d| == |w.id| && |w.y| == |w.iy| && (!w.placed ==> j < |w.y|)
    requires w.id[w.p].offset == e.offset && |e.data| >= |w.id[w.p].data|
    ensures WalkOk(Met(w, epos, e, j)) && Future(w, e) == Future(Met(w, epos, e, j), e)
  {
    MetOk(w, epos, e, j);
    OutlookPlace(w.id, w.placed, w.q, w.p, e, if w.placed then w.p - 1 else w.p);
  }

  /** Where the walk is then. */
  lemma MetAt(w: Walk, epos: Entry, e: Item, j: nat)
    requires WalkOk(w) && w.p < |w.id| - 1 && |w.d| == |w.id| && |w.y| == |w.iy| && (!w.placed ==> j < |w.y|)
    ensures var v := Met(w, epos, e, j);
      |v.d| - v.p == |w.d| - w.p - 1 && v.d[v.p] == w.d[w.p + 1] && v.d[0] == w.d[0] && Within(v.d, w.d, epos)
  {
    LooseAt(w.d, w.placed, w.q, w.p, if w.placed then w.p - 1 else w.p, epos);
  }

  lemma MetSound(w: Walk, epos: Entry, j: nat, p: nat)
    requires WalkOk(w) && w.p < |w.id| - 1 && |w.d| == |w.id| && |w.y| == |w.iy| && (!w.placed ==> j < |w.y|)
    requires p == (if w.placed then w.p - 1 else w.p) && p < |Loose(w.d, w.placed, w.q)| - 1
    requires Apart(Loose(w.d, w.placed, w.q)[p := epos], Rest(w.y, w.placed, j))
    requires |Freed(w.id, w.placed, w.q)| == |Loose(w.d, w.placed, w.q)|
    requires Shows(Loose(w.d, w.placed, w.q)[p := epos], Freed(w.id, w.placed, w.q)[p := epos.item])
    requires Shows(Rest(w.y, w.placed, j), RestItems(w.iy, w.placed, j))
    ensures Sound(Met(w, epos, epos.item, j), epos, j)
  {}

  /** A match at `pos` that is not longer. */
  method Meet(pos: Entry, epos: Entry, ghost w: Walk, ghost j: nat)
    requires Sound(w, epos, j) && w.p < |w.d| - 1 && w.d[w.p] == pos
    modifies w.d, w.y
    ensures Sound(Met(w, epos, epos.item, j), epos, j) && epos.item == old(epos.item)
    ensures var v := Met(w, epos, epos.item, j);
      |v.d| - v.p == |w.d| - w.p - 1 && v.d[v.p] == w.d[w.p + 1] && v.d[0] == w.d[0] && Within(v.d, w.d, epos)
  {
    MetAt(w, epos, epos.item, j);
    ghost var k := Migrate(pos, epos, w.d, w.id, w.y, w.iy, w.placed, w.q, j, w.p);
    MetSound(w, epos, j, k);
  }

  /** Until the extra is placed nothing has changed and nothing matched; then it is gone from the extras. */
  ghost predicate Traced(w: Walk, o: Walk, epos: Entry, j: nat, offset: nat) {
    && j < |o.y| == |o.iy| && |o.id| >= 2 && Within(w.d, o.d, epos)
    && if w.placed then w.y == Without(o.y, j) && w.iy == Cutout(o.iy, j) && Matches(Middle(o.id), offset)
       else w.d == o.d && w.id == o.id && w.y == o.y && w.iy == o.iy && w.p < |o.id| && forall i :: 0 < i < w.p ==> o.id[i].offset != offset
  }

  lemma MetTraced(w: Walk, o: Walk, epos: Entry, e: Item, j: nat)
    requires Traced(w, o, epos, j, e.offset) && WalkOk(w) && w.p < |w.id| - 1 && |w.d| == |w.id| && |w.y| == |w.iy| && (!w.placed ==> j < |w.y|)
    requires w.id[w.p].offset == e.offset
    requires Within(Met(w, epos, e, j).d, w.d, epos)
    ensures Traced(Met(w, epos, e, j), o, epos, j, e.offset)
  {
    if !w.placed {
      MatchAt(o.id, w.p, e.offset);
    }
  }

  /** Everything the walk keeps. */
  ghost predicate Going(w: Walk, o: Walk, epos: Entry, j: nat, e: Item)
    reads w.d, w.y, epos
  {
    && Sound(w, epos, j) && WalkOk(w) && epos.item == e && j < |o.y| && o.y[j] == epos
    && Traced(w, o, epos, j, e.offset) && WalkOk(o) && Future(w, e) == Future(o, e)
  }

  method Replaced(pos: Entry, epos: Entry, ghost w: Walk, ghost o: Walk, ghost j: nat, ghost e: Item)
    requires j < |o.y| && Going(w, o, epos, j, e) && w.p < |w.d| - 1 && w.d[w.p] == pos
    requires pos.item.offset == e.offset && |e.data| >= |pos.item.data|
    modifies w.d, w.y
    ensures Going(Met(w, epos, e, j), o, epos, j, e)
    ensures var v := Met(w, epos, e, j); |v.d| - v.p == |w.d| - w.p - 1 && v.d[v.p] == w.d[w.p + 1] && v.d[0] == w.d[0]
  {
    MetFuture(w, epos, e, j);
    Meet(pos, epos, w, j);
    MetTraced(w, o, epos, e, j);
  }

  /** What one extra does to the two lists. */
  ghost predicate Outcome(d: seq<Entry>, id: seq<Item>, o: Walk, epos: Entry, j: nat, e: Item)
    requires j < |o.y| == |o.iy| && |o.id| >= 2 && |o.d| >= 2
    reads d, o.d, o.y
  {
    && Shows(d, id) && |d| >= 2 && d[0] == o.d[0] && Within(d, o.d, epos)
    && if Matches(Middle(o.id), e.offset)
       then Apart(d, Without(o.y, j)) && Shows(Without(o.y, j), Cutout(o.iy, j)) && Middle(id) == Absorb(Middle(o.id), e)
       else d == o.d && id == o.id && Apart(d, o.y) && Shows(o.y, o.iy)
  }

  /** The walk as it begins. */
  ghost predicate Starting(o: Walk) {
    o.p == 1 && !o.placed && o.q == 0 && |o.d| == |o.id| >= 2 && |o.y| == |o.iy|
  }

  method Updated(pos: Entry, epos: Entry, ghost w: Walk, ghost o: Walk, ghost j: nat, ghost e: Item)
    returns (ghost d: seq<Entry>, ghost id: seq<Item>)
    requires Starting(o) && Going(w, o, epos, j, e) && w.p < |w.d| - 1 && w.d[w.p] == pos && w.d[0] == o.d[0]
    requires pos.item.offset == e.offset && |e.data| < |pos.item.data|
    modifies w.d, w.y
    ensures Outcome(d, id, o, epos, j, e)
  {
    MatchedHere(w, o, epos, j, e);
    FutureStart(o, e);
    LooseAt(w.d, w.placed, w.q, w.p, if w.placed then w.p - 1 else w.p, epos);
    id := Update(pos, epos, w.d, w.id, w.y, w.iy, w.placed, w.q, j, w.p);
    d := Loose(w.d, w.placed, w.q);
  }

  lemma NoMatch(ic: seq<Item>, o: nat)
    requires |ic| >= 2 && forall i :: 0 < i < |ic| - 1 ==> ic[i].offset != o
    ensures !Matches(Middle(ic), o)
  {}

  lemma FutureStart(o: Walk, e: Item)
    requires Starting(o)
    ensures WalkOk(o) && Future(o, e) == if Matches(Middle(o.id), e.offset) then Absorb(Middle(o.id), e) else Middle(o.id)
  {
    OutlookStart(o.id, e);
  }

  lemma FutureEnd(w: Walk, e: Item)
    requires WalkOk(w) && w.p == |w.id| - 1 && (w.placed ==> w.id[w.q] == e)
    ensures Future(w, e) == Middle(w.id)
  {
    OutlookEnd(w.id, w.placed, w.q, e);
  }

  lemma WalkedOver(w: Walk, o: Walk, epos: Entry, j: nat, e: Item)
    requires Starting(o) && Going(w, o, epos, j, e) && w.p == |w.d| - 1 && w.d[0] == o.d[0]
    ensures Outcome(w.d, w.id, o, epos, j, e)
  {
    if w.placed {
      FutureStart(o, e);
      FutureEnd(w, e);
    } else {
      NoMatch(o.id, e.offset);
    }
  }

  /** One base entry against the extra; `stop` if the extra is used up. */
  method Visit(pos: Entry, epos: Entry, ghost w: Walk, ghost o: Walk, ghost j: nat, ghost e: Item)
    returns (stop: bool, ghost w': Walk)
    requires Starting(o) && Going(w, o, epos, j, e) && w.p < |w.d| - 1 && w.d[w.p] == pos && w.d[0] == o.d[0]
    modifies w.d, w.y
    ensures stop ==> Outcome(w'.d, w'.id, o, epos, j, e)
    ensures !stop ==> Going(w', o, epos, j, e) && |w'.d| - w'.p == |w.d| - w.p - 1 && w'.d[w'.p] == w.d[w.p + 1] && w'.d[0] == o.d[0]
  {
    stop, w' := false, w;
    if epos.item.offset == pos.item.offset {
      if |epos.item.data| < |pos.item.data| {
        ghost var d, id := Updated(pos, epos, w, o, j, e);
        stop, w' := true, w.(d := d, id := id);
      } else {
        Replaced(pos, epos, w, o, j, e);
        w' := Met(w, epos, e, j);
      }
    } else {
      SkippedFuture(w, e);
      w' := Skipped(w);
    }
  }

  /** One extra against the whole base list. */
  method MergeOne(epos: Entry, head: Entry, ghost o: Walk, ghost j: nat)
    returns (ghost d: seq<Entry>, ghost id: seq<Item>)
    requires Starting(o) && Sound(o, epos, j) && o.d[0] == head
    modifies o.d, o.y
    ensures Outcome(d, id, o, epos, j, o.iy[j])
  {
    ghost var w, e := o, o.iy[j];
    assert o.d[0].next == o.d[1];
    var pos := head.next;
    while pos != head
      invariant Going(w, o, epos, j, e) && w.d[w.p] == pos && w.d[0] == head
      decreases |w.d| - w.p
    {
      assert w.d[w.p].next == w.d[w.p + 1];
      Owned(w, o, epos, j, e.offset);
      var next := pos.next;
      var stop;
      stop, w := Visit(pos, epos, w, o, j, e);
      if stop {
        d, id := w.d, w.id;
        return;
      }
      pos := next;
    }
    d, id := w.d, w.id;
    WalkedOver(w, o, epos, j, e);
  }

  lemma Owned(w: Walk, o: Walk, epos: Entry, j: nat, offset: nat)
    requires Traced(w, o, epos, j, offset) && o.y[j] == epos
    ensures forall n :: n in w.d ==> n in o.d || n in o.y
    ensures forall n :: n in w.y ==> n in o.y
  {}

  lemma MatchedHere(w: Walk, o: Walk, epos: Entry, j: nat, e: Item)
    requires Traced(w, o, epos, j, e.offset) && 0 < w.p < |w.id| - 1 && w.id[w.p].offset == e.offset
    ensures Matches(Middle(o.id), e.offset)
  {
    if !w.placed {
      MatchAt(o.id, w.p, e.offset);
    }
  }

  // ----- All extras -----

  lemma {:induction false} MergeIntoNothing(extras: seq<Item>)
    ensures MergeInto([], extras) == ([], extras)
  {
    if extras != [] {
      MergeIntoNothing(extras[1..]);
      assert [extras[0]] + extras[1..] == extras;
    }
  }

  /** The merge still to come when the first `j - 1` extras left over were met. */
  ghost predicate Merging(whole: (seq<Item>, seq<Item>), ic: seq<Item>, iy: seq<Item>, j: nat)
    requires |ic| >= 2 && 0 < j < |iy|
  {
    var r := MergeInto(Middle(ic), iy[j..|iy| - 1]);
    whole == (r.0, iy[1..j] + r.1)
  }

  lemma MergingStart(ic: seq<Item>, iy: seq<Item>)
    requires |ic| >= 2 && |iy| >= 2
    ensures Merging(MergeInto(Middle(ic), Middle(iy)), ic, iy, 1)
  {
    var r := MergeInto(Middle(ic), Middle(iy));
    assert iy[1..1] + r.1 == r.1;
  }

  lemma MergingKept(whole: (seq<Item>, seq<Item>), ic: seq<Item>, iy: seq<Item>, j: nat)
    requires |ic| >= 2 && 0 < j < |iy| - 1 && Merging(whole, ic, iy, j) && !Matches(Middle(ic), iy[j].offset)
    ensures Merging(whole, ic, iy, j + 1)
  {
    var todo := iy[j..|iy| - 1];
    assert todo[1..] == iy[j + 1..|iy| - 1] && todo[0] == iy[j];
    var r := MergeInto(Middle(ic), todo[1..]);
    assert iy[1..j] + ([iy[j]] + r.1) == iy[1..j + 1] + r.1;
  }

  lemma MergingUsed(whole: (seq<Item>, seq<Item>), ic: seq<Item>, iy: seq<Item>, j: nat, id: seq<Item>)
    requires |ic| >= 2 && |id| >= 2 && 0 < j < |iy| - 1 && Merging(whole, ic, iy, j)
    requires Matches(Middle(ic), iy[j].offset) && Middle(id) == Absorb(Middle(ic), iy[j])
    ensures Merging(whole, id, Cutout(iy, j), j)
  {
    var todo, iz := iy[j..|iy| - 1], Cutout(iy, j);
    assert todo[1..] == iz[j..|iz| - 1] && todo[0] == iy[j] && iz[1..j] == iy[1..j];
  }

  lemma MergingEnd(whole: (seq<Item>, seq<Item>), ic: seq<Item>, iy: seq<Item>)
    requires |ic| >= 2 && |iy| >= 2 && Merging(whole, ic, iy, |iy| - 1)
    ensures whole == (Middle(ic), Middle(iy))
  {
    var n := |iy| - 1;
    assert iy[n..n] == [] && iy[1..n] + [] == iy[1..n];
  }

  /** The entries of `d` and `y` all come from `c` and `x`. */
  ghost predicate From(d: seq<Entry>, y: seq<Entry>, c: seq<Entry>, x: seq<Entry>) {
    (forall i :: 0 <= i < |d| ==> d[i] in c || d[i] in x) && forall i :: 0 <= i < |y| ==> y[i] in c || y[i] in x
  }

  lemma FromStep(d: seq<Entry>, y: seq<Entry>, d': seq<Entry>, epos: Entry, j: nat, c: seq<Entry>, x: seq<Entry>)
    requires From(d, y, c, x) && j < |y| && y[j] == epos && Within(d', d, epos)
    ensures From(d', y, c, x) && From(d', Without(y, j), c, x)
  {}

  /** Both lists, their items, their heads, and where the walk over the extras is. */
  ghost predicate Both(d: seq<Entry>, id: seq<Item>, y: seq<Entry>, iy: seq<Item>, head: Entry, head2: Entry)
    reads d, y
  {
    Apart(d, y) && Shows(d, id) && Shows(y, iy) && d[0] == head && y[0] == head2
  }

  /** One extra, as the loop over the extras sees it. */
  method NextExtra(epos: Entry, head: Entry, head2: Entry, ghost d: seq<Entry>, ghost id: seq<Item>,
                   ghost y: seq<Entry>, ghost iy: seq<Item>, ghost j: nat, ghost whole: (seq<Item>, seq<Item>))
    returns (ghost d': seq<Entry>, ghost id': seq<Item>, ghost used: bool)
    requires Both(d, id, y, iy, head, head2) && 0 < j < |y| - 1 && y[j] == epos && Merging(whole, id, iy, j)
    modifies d, y
    ensures Within(d', d, epos)
    ensures used ==> Both(d', id', Without(y, j), Cutout(iy, j), head, head2) && Merging(whole, id', Cutout(iy, j), j)
    ensures !used ==> Both(d', id', y, iy, head, head2) && Merging(whole, id', iy, j + 1)
  {
    ghost var o := Walk(d, id, y, iy, false, 0, 1);
    used := Matches(Middle(id), iy[j].offset);
    d', id' := MergeOne(epos, head, o, j);
    if used {
      MergingUsed(whole, id, iy, j, id');
    } else {
      MergingKept(whole, id, iy, j);
    }
  }

  /** The loop that adds to, updates and replaces the base entries. */
  method MeetExtras(head: Entry, head2: Entry, ghost c: seq<Entry>, ghost ic: seq<Item>, ghost x: seq<Entry>, ghost ix: seq<Item>)
    returns (ghost d: seq<Entry>, ghost id: seq<Item>, ghost y: seq<Entry>, ghost iy: seq<Item>)
    requires Both(c, ic, x, ix, head, head2)
    modifies c, x
    ensures Both(d, id, y, iy, head, head2) && From(d, y, c, x)
    ensures MergeInto(Middle(ic), Middle(ix)) == (Middle(id), Middle(iy))
  {
    ghost var whole, j := MergeInto(Middle(ic), Middle(ix)), 1;
    d, id, y, iy := c, ic, x, ix;
    MergingStart(ic, ix);
    assert x[0].next == x[1];
    var epos := head2.next;
    while epos != head2
      invariant Both(d, id, y, iy, head, head2) && From(d, y, c, x)
      invariant 0 < j < |y| && y[j] == epos && Merging(whole, id, iy, j)
      decreases |y| - j
    {
      assert y[j].next == y[j + 1];
      var enext := epos.next;
      ghost var d', used;
      d', id, used := NextExtra(epos, head, head2, d, id, y, iy, j, whole);
      FromStep(d, y, d', epos, j, c, x);
      d := d';
      if used {
        y, iy := Without(y, j), Cutout(iy, j);
      } else {
        j := j + 1;
      }
      epos := enext;
    }
    MergingEnd(whole, id, iy);
  }

  function Appended(ic: seq<Item>, e: Item): seq<Item>
    requires |ic| >= 2
  {
    ic[..|ic| - 1] + [e] + ic[|ic| - 1..]
  }

  lemma AppendedMiddle(ic: seq<Item>, iy: seq<Item>)
    requires |ic| >= 2 && |iy| > 2
    ensures Middle(Appended(ic, iy[1])) + Middle(Cutout(iy, 1)) == Middle(ic) + Middle(iy)
  {
    assert Middle(Appended(ic, iy[1])) == Middle(ic) + [iy[1]];
    assert Middle(iy) == [iy[1]] + Middle(Cutout(iy, 1));
  }

  lemma InsertedShows(c: seq<Entry>, ic: seq<Item>, e: Entry)
    requires Shows(c, ic) && |c| >= 2
    ensures Shows(Inserted(c, |c| - 1, e), Appended(ic, e.item))
  {}

  lemma InsertedApart(d: seq<Entry>, y: seq<Entry>, e: Entry)
    requires Disjoint(d, y) && e !in y && |d| >= 2
    ensures Disjoint(Inserted(d, |d| - 1, e), y)
  {}

  /** Moves the first extra to the end of the base list. */
  method AppendOne(epos: Entry, head: Entry, head2: Entry, ghost d: seq<Entry>, ghost id: seq<Item>, ghost y: seq<Entry>, ghost iy: seq<Item>)
    requires Both(d, id, y, iy, head, head2) && |y| > 2 && y[1] == epos
    modifies d, y
    ensures Both(Inserted(d, |d| - 1, epos), Appended(id, iy[1]), Without(y, 1), Cutout(iy, 1), head, head2)
  {
    Detach(epos, d, id, y, iy, false, 0, 1);
    ghost var k := |d| - 1;
    assert d[k - 1].next == d[k] && d[k].prev == d[k - 1];
    InsertedApart(d, Without(y, 1), epos);
    ListAdd(epos, head.prev, head, d, k);
    InsertedShows(d, id, epos);
  }

  lemma FromAppend(d: seq<Entry>, y: seq<Entry>, c: seq<Entry>, x: seq<Entry>)
    requires From(d, y, c, x) && |y| > 2 && |d| >= 2
    ensures From(Inserted(d, |d| - 1, y[1]), Without(y, 1), c, x)
  {}

  /** The loop that appends the extras left over. */
  method AppendExtras(head: Entry, head2: Entry, ghost c: seq<Entry>, ghost ic: seq<Item>, ghost x: seq<Entry>, ghost ix: seq<Item>)
    returns (ghost d: seq<Entry>, ghost id: seq<Item>)
    requires Both(c, ic, x, ix, head, head2)
    modifies c, x
    ensures IsRing(d) && Shows(d, id) && d[0] == head && IsRing([head2, head2]) && head2 !in d
    ensures Middle(id) == Middle(ic) + Middle(ix)
    ensures forall i :: 0 <= i < |d| ==> d[i] in c || d[i] in x
  {
    ghost var y, iy := x, ix;
    d, id := c, ic;
    assert x[0].next == x[1];
    var epos := head2.next;
    while epos != head2
      invariant Both(d, id, y, iy, head, head2) && From(d, y, c, x) && y[1] == epos
      invariant Middle(id) + Middle(iy) == Middle(ic) + Middle(ix)
      decreases |y|
    {
      assert y[1].next == y[2];
      var enext := epos.next;
      AppendedMiddle(id, iy);
      FromAppend(d, y, c, x);
      AppendOne(epos, head, head2, d, id, y, iy);
      d, id := Inserted(d, |d| - 1, epos), Appended(id, iy[1]);
      y, iy := Without(y, 1), Cutout(iy, 1);
      epos := enext;
    }
    assert y == [head2, head2];
    assert Middle(iy) == [] && Middle(id) + [] == Middle(id);
  }

  lemma SpliceMerge(ic: seq<Item>, ix: seq<Item>)
    requires |ic| == 2 && |ix| >= 2
    ensures Middle(ic[..1] + Middle(ix) + ic[1..]) == Merge(Middle(ic), Middle(ix))
  {
    var id := ic[..1] + Middle(ix) + ic[1..];
    assert Middle(id) == Middle(ix) && Middle(ic) == [];
    MergeIntoNothing(Middle(ix));
    assert [] + Middle(ix) == Middle(ix);
  }

  lemma SpliceShows(c: seq<Entry>, ic: seq<Item>, x: seq<Entry>, ix: seq<Item>)
    requires Shows(c, ic) && Shows(x, ix) && |c| == 2 && |x| >= 2
    ensures Shows(Extended(c, Inner(x)), ic[..1] + Middle(ix) + ic[1..])
    ensures forall i :: 0 <= i < |Extended(c, Inner(x))| ==> Extended(c, Inner(x))[i] in c || Extended(c, Inner(x))[i] in x
  {}

  lemma SpliceLeaves(c: seq<Entry>, x: seq<Entry>)
    requires Distinct(c) && Distinct(x) && Disjoint(c, x)
    ensures x[0] !in Extended(c, Inner(x)) && forall i :: 0 <= i < |x| ==> x[i] !in c
  {}

  /** An empty base list takes over all extras. */
  method TakeOver(head: Entry, head2: Entry, ghost c: seq<Entry>, ghost ic: seq<Item>, ghost x: seq<Entry>, ghost ix: seq<Item>)
    returns (ghost d: seq<Entry>, ghost id: seq<Item>)
    requires Both(c, ic, x, ix, head, head2) && |c| == 2 && |x| > 2
    modifies c, x
    ensures IsRing(d) && Shows(d, id) && d[0] == head && IsRing([head2, head2]) && head2 !in d
    ensures Middle(id) == Merge(Middle(ic), Middle(ix))
    ensures forall i :: 0 <= i < |d| ==> d[i] in c || d[i] in x
  {
    SpliceLeaves(c, x);
    ListSpliceTailInit(head2, head, c, x);
    d, id := Extended(c, Inner(x)), ic[..1] + Middle(ix) + ic[1..];
    SpliceMerge(ic, ix);
    SpliceShows(c, ic, x, ix);
  }

  lemma EmptyMerge(ic: seq<Item>, ix: seq<Item>)
    requires |ic| >= 2 && |ix| == 2
    ensures Merge(Middle(ic), Middle(ix)) == Middle(ic)
  {
    assert Middle(ix) == [] && Middle(ic) + [] == Middle(ic);
  }

  lemma IsEmpty(c: seq<Entry>)
    requires IsRing(c)
    ensures c[0].next == c[0] <==> |c| == 2
    ensures |c| == 2 ==> c == [c[0], c[0]]
  {
    assert c[0].next == c[1];
  }

  /**
   * Merges the extras into the base list: the base list then shows the merge of the two, both
   * lists are sound circles again, and the extras are empty.
   */
  method MergeConfigs(head: Entry, head2: Entry, ghost c: seq<Entry>, ghost ic: seq<Item>, ghost x: seq<Entry>, ghost ix: seq<Item>)
    returns (ghost d: seq<Entry>, ghost id: seq<Item>)
    requires Both(c, ic, x, ix, head, head2)
    modifies c, x
    ensures IsRing(d) && Shows(d, id) && d[0] == head && IsRing([head2, head2]) && head2 !in d
    ensures Middle(id) == Merge(Middle(ic), Middle(ix))
    ensures forall i :: 0 <= i < |d| ==> d[i] in c || d[i] in x
  {
    IsEmpty(c);
    IsEmpty(x);
    if head2.next == head2 {
      d, id := c, ic;
      EmptyMerge(ic, ix);
    } else if head.next == head {
      d, id := TakeOver(head, head2, c, ic, x, ix);
    } else {
      ghost var y, iy;
      d, id, y, iy := MeetExtras(head, head2, c, ic, x, ix);
      d, id := AppendExtras(head, head2, d, id, y, iy);
    }
  }
}
