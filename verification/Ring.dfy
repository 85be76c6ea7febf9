/** The circular doubly linked lists the configuration items hang on, and the moves made on them. */
module Ring {
  /** A list entry, or the head of a list, whose item means nothing. */
  class Node<T> {
    var next: Node?<T>
    var prev: Node?<T>
    var item: T

    /** A head alone is the empty list. */
    constructor (i: T)
      ensures item == i && IsRing([this, this])
    {
      item := i;
      next := this;
      prev := this;
    }
  }

  /** No entry occurs twice, apart from the head at both ends. */
  ghost predicate Distinct<T>(c: seq<Node<T>>) {
    && |c| >= 2 && c[0] == c[|c| - 1]
    && (forall i, j :: 0 <= i < j < |c| - 1 ==> c[i] != c[j])
    && (forall i, j :: 0 < i < j < |c| ==> c[i] != c[j])
  }

  ghost predicate Linked<T>(c: seq<Node<T>>)
    reads c
  {
    forall i :: 0 <= i < |c| - 1 ==> c[i].next == c[i + 1] && c[i + 1].prev == c[i]
  }

  /** `c` is a list walked once around, from its head to its head. */
  ghost predicate IsRing<T>(c: seq<Node<T>>)
    reads c
  {
    Distinct(c) && Linked(c)
  }

  /** `ic` are the items along the walk `c`. */
  ghost predicate Shows<T>(c: seq<Node<T>>, ic: seq<T>)
    reads c
  {
    |c| == |ic| && forall i :: 0 <= i < |c| ==> c[i].item == ic[i]
  }

  /** The items of the entries, without the head's. */
  function Middle<T>(ic: seq<T>): seq<T>
    requires |ic| >= 2
  {
    ic[1..|ic| - 1]
  }

  ghost function Without<T>(c: seq<Node<T>>, k: nat): seq<Node<T>>
    requires k < |c|
  {
    c[..k] + c[k + 1..]
  }

  lemma WithoutAt<T>(c: seq<Node<T>>, k: nat)
    requires Distinct(c) && 0 < k < |c| - 1
    ensures Distinct(Without(c, k)) && c[k] !in Without(c, k)
    ensures forall i :: 0 <= i < |c| - 1 ==> Without(c, k)[i] == if i < k then c[i] else c[i + 1]
  {
  }

  lemma WithoutShows<T>(c: seq<Node<T>>, ic: seq<T>, k: nat)
    requires Shows(c, ic) && k < |c|
    ensures Shows(Without(c, k), ic[..k] + ic[k + 1..])
  {}

  /** Makes the neighbours of an entry point past it. */
  method ListUnlink<T>(e: Node<T>, ghost c: seq<Node<T>>, ghost k: nat)
    requires IsRing(c) && 0 < k < |c| - 1 && c[k] == e
    modifies c
    ensures IsRing(Without(c, k))
    ensures forall n :: n in c ==> n.item == old(n.item)
  {
    ghost var d := Without(c, k);
    WithoutAt(c, k);
    var p, n := e.prev, e.next;
    assert p == c[k - 1] && n == c[k + 1] by {
      assert c[k - 1].next == c[k] && c[k].prev == c[k - 1];
      assert c[k].next == c[k + 1];
    }
    n.prev := p;
    p.next := n;
    forall i | 0 <= i < |d| - 1 ensures d[i].next == d[i + 1] && d[i + 1].prev == d[i] {
      if i < k - 1 {
        assert old(c[i].next) == c[i + 1];
      } else if i > k - 1 {
        assert old(c[i + 1].next) == c[i + 2];
      }
    }
  }

  /** Takes an entry out of its list; it is left pointing nowhere. */
  method ListDel<T>(e: Node<T>, ghost c: seq<Node<T>>, ghost k: nat)
    requires IsRing(c) && 0 < k < |c| - 1 && c[k] == e
    modifies c
    ensures IsRing(Without(c, k)) && e.next == null && e.prev == null
    ensures forall n :: n in c ==> n.item == old(n.item)
  {
    ListUnlink(e, c, k);
    WithoutAt(c, k);
    e.next, e.prev := null, null;
  }

  /** Takes an entry out of its list; it becomes a list of its own. */
  method ListDelInit<T>(e: Node<T>, ghost c: seq<Node<T>>, ghost k: nat)
    requires IsRing(c) && 0 < k < |c| - 1 && c[k] == e
    modifies c
    ensures IsRing(Without(c, k)) && IsRing([e, e])
    ensures forall n :: n in c ==> n.item == old(n.item)
  {
    ListUnlink(e, c, k);
    WithoutAt(c, k);
    e.next, e.prev := e, e;
  }

  lemma ReplacedAt<T>(c: seq<Node<T>>, k: nat, e: Node<T>)
    requires Distinct(c) && 0 < k < |c| - 1 && e !in c
    ensures Distinct(c[k := e]) && c[k] !in c[k := e]
  {}

  /** Puts `e` in the place of `was`, which becomes a list of its own. */
  method ListReplaceInit<T>(was: Node<T>, e: Node<T>, ghost c: seq<Node<T>>, ghost k: nat)
    requires IsRing(c) && 0 < k < |c| - 1 && c[k] == was && e !in c
    modifies c, e
    ensures IsRing(c[k := e]) && IsRing([was, was])
    ensures e.item == old(e.item) && forall n :: n in c ==> n.item == old(n.item)
  {
    ghost var d := c[k := e];
    ReplacedAt(c, k, e);
    assert c[k].next == c[k + 1] && c[k + 1].prev == c[k];
    assert c[k - 1].next == c[k] && c[k].prev == c[k - 1];
    e.next := was.next;
    e.next.prev := e;
    e.prev := was.prev;
    e.prev.next := e;
    was.next, was.prev := was, was;
    forall i | 0 <= i < |d| - 1 ensures d[i].next == d[i + 1] && d[i + 1].prev == d[i] {
      assert old(c[i].next) == c[i + 1] && old(c[i + 1].prev) == c[i];
    }
  }

  /** The walk with `m` put in just before the head at its end. */
  ghost function Extended<T>(c: seq<Node<T>>, m: seq<Node<T>>): seq<Node<T>>
    requires c != []
  {
    c[..|c| - 1] + m + [c[|c| - 1]]
  }

  lemma ExtendedAt<T>(c: seq<Node<T>>, m: seq<Node<T>>)
    requires Distinct(c) && (forall i :: 0 <= i < |m| ==> m[i] !in c) && (forall i, j :: 0 <= i < j < |m| ==> m[i] != m[j])
    ensures Distinct(Extended(c, m))
  {}

  ghost function Inserted<T>(c: seq<Node<T>>, k: nat, e: Node<T>): seq<Node<T>>
    requires k <= |c|
  {
    c[..k] + [e] + c[k..]
  }

  lemma InsertedAt<T>(c: seq<Node<T>>, k: nat, e: Node<T>)
    requires Distinct(c) && 0 < k < |c| && e !in c
    ensures var d := Inserted(c, k, e);
      Distinct(d) && |d| == |c| + 1 && forall i :: 0 <= i < |d| ==> d[i] == if i < k then c[i] else if i == k then e else c[i - 1]
  {}

  /** Puts an entry between two neighbours. */
  method ListAdd<T>(e: Node<T>, prev: Node<T>, next: Node<T>, ghost c: seq<Node<T>>, ghost k: nat)
    requires IsRing(c) && 0 < k < |c| && c[k - 1] == prev && c[k] == next && e !in c
    modifies c, e
    ensures IsRing(Inserted(c, k, e))
    ensures e.item == old(e.item) && forall n :: n in c ==> n.item == old(n.item)
  {
    ghost var d := Inserted(c, k, e);
    InsertedAt(c, k, e);
    next.prev := e;
    e.next := next;
    e.prev := prev;
    prev.next := e;
    forall i | 0 <= i < |d| - 1 ensures d[i].next == d[i + 1] && d[i + 1].prev == d[i] {
      if i < k - 1 {
        assert old(c[i].next) == c[i + 1] && old(c[i + 1].prev) == c[i];
      } else if i > k {
        assert old(c[i - 1].next) == c[i] && old(c[i].prev) == c[i - 1];
      }
    }
  }

  /** The entries of a list. */
  ghost function Inner<T>(c: seq<Node<T>>): seq<Node<T>>
    requires |c| >= 2
  {
    c[1..|c| - 1]
  }

  lemma SplicedAt<T>(c: seq<Node<T>>, x: seq<Node<T>>)
    requires Distinct(c) && Distinct(x) && forall i :: 0 <= i < |x| ==> x[i] !in c
    ensures var d := Extended(c, Inner(x));
      && Distinct(d) && |d| == |c| + |x| - 2
      && forall i :: 0 <= i < |d| ==>
           d[i] == if i < |c| - 1 then c[i] else if i < |d| - 1 then x[i - |c| + 2] else c[0]
  {
    var m := Inner(x);
    assert forall i :: 0 <= i < |m| ==> m[i] == x[i + 1];
    ExtendedAt(c, m);
  }

  /** Moves all entries of a list behind those of another; the emptied head is set up again. */
  method ListSpliceTailInit<T>(list: Node<T>, head: Node<T>, ghost c: seq<Node<T>>, ghost x: seq<Node<T>>)
    requires IsRing(c) && c[0] == head && IsRing(x) && x[0] == list && |x| > 2
    requires forall i :: 0 <= i < |x| ==> x[i] !in c
    modifies c, x
    ensures IsRing(Extended(c, Inner(x))) && IsRing([list, list])
    ensures forall n :: n in c || n in x ==> n.item == old(n.item)
  {
    ghost var d, k, z := Extended(c, Inner(x)), |c| - 1, |x| - 1;
    SplicedAt(c, x);
    assert c[k - 1].next == c[k] && c[k].prev == c[k - 1];
    assert x[0].next == x[1] && x[z - 1].next == x[z] && x[z].prev == x[z - 1];
    var first, last := list.next, list.prev;
    var prev := head.prev;
    first.prev := prev;
    prev.next := first;
    last.next := head;
    head.prev := last;
    list.next, list.prev := list, list;
    forall i | 0 <= i < |d| - 1 ensures d[i].next == d[i + 1] && d[i + 1].prev == d[i] {
      if i < k - 1 {
        assert old(c[i].next) == c[i + 1] && old(c[i + 1].prev) == c[i];
      } else if k - 1 < i < |d| - 2 {
        var j := i - k + 1;
        assert old(x[j].next) == x[j + 1] && old(x[j + 1].prev) == x[j];
      }
    }
  }
}
