/** Choosing the firmware snippets for a chip version, ordering them, and putting the image together. */
module Patch {
  import opened Bytes

  /** One snippet of a new-format firmware file. */
  datatype Snippet = Snippet(eco: Byte, pri: Byte, payload: seq<Byte>)

  // ----- Reading the file; `None` is a file that ends too early -----

  function Le32(s: seq<Byte>, i: nat): (r: nat)
    requires i + 3 < |s|
    ensures r < 0x1_0000_0000
  {
    Le16(s, i) + 0x10000 * Le16(s, i + 2)
  }

  const FIRST_SECTION: nat := 20
  const SECTION_HEADER: nat := 8
  const SNIPPETS: nat := 1
  const DUMMY_HEADER: nat := 2

  /** The snippet at `pos`; it takes eight octets and its payload. */
  function SnippetAt(fw: seq<Byte>, pos: nat): (r: Option<Snippet>)
    ensures r.Some? ==> pos + 8 + |r.value.payload| <= |fw|
  {
    if pos + 8 > |fw| || pos + 8 + Le32(fw, pos + 4) > |fw| then None
    else Some(Snippet(fw[pos], fw[pos + 1], fw[pos + 8..pos + 8 + Le32(fw, pos + 4)]))
  }

  /** `n` snippets from `pos` on. */
  function SnippetsAt(fw: seq<Byte>, pos: nat, n: nat): Option<seq<Snippet>>
    decreases n
  {
    if n == 0 then Some([]) else
    match SnippetAt(fw, pos)
    case None => None
    case Some(s) =>
      match SnippetsAt(fw, pos + 8 + |s.payload|, n - 1)
      case None => None
      case Some(rest) => Some([s] + rest)
  }

  /** The snippets of the section at `pos`: without a key, plain and dummy sections have some. */
  function SectionAt(fw: seq<Byte>, pos: nat): Option<seq<Snippet>>
    requires pos + SECTION_HEADER <= |fw|
  {
    var opcode := Le32(fw, pos);
    if opcode != SNIPPETS && opcode != DUMMY_HEADER then Some([])
    else if pos + 12 > |fw| then None
    else SnippetsAt(fw, pos + 12, Le16(fw, pos + 8))
  }

  /** The snippets of `n` sections from `pos` on, in file order. */
  function SectionsAt(fw: seq<Byte>, pos: nat, n: nat): Option<seq<Snippet>>
    decreases n
  {
    if n == 0 then Some([])
    else if pos + SECTION_HEADER > |fw| then None
    else
      match SectionAt(fw, pos)
      case None => None
      case Some(first) =>
        match SectionsAt(fw, pos + SECTION_HEADER + Le32(fw, pos + 4), n - 1)
        case None => None
        case Some(rest) => Some(first + rest)
  }

  function FileSnippets(fw: seq<Byte>): Option<seq<Snippet>> {
    if |fw| < FIRST_SECTION then None else SectionsAt(fw, FIRST_SECTION, Le16(fw, 16))
  }

  // ----- Choosing and ordering -----

  /** The snippets for a chip version, in file order. */
  function Chosen(s: seq<Snippet>, eversion: Byte): seq<Snippet> {
    if s == [] then []
    else if s[0].eco == eversion + 1 then [s[0]] + Chosen(s[1..], eversion)
    else Chosen(s[1..], eversion)
  }

  /** A snippet goes before the first one whose priority is not lower. */
  function Insert(list: seq<Snippet>, n: Snippet): seq<Snippet> {
    if list == [] || list[0].pri >= n.pri then [n] + list else [list[0]] + Insert(list[1..], n)
  }

  function InsertAll(list: seq<Snippet>, s: seq<Snippet>): seq<Snippet>
    decreases |s|
  {
    if s == [] then list else InsertAll(Insert(list, s[0]), s[1..])
  }

  function Joined(list: seq<Snippet>): seq<Byte> {
    if list == [] then [] else list[0].payload + Joined(list[1..])
  }

  function Total(list: seq<Snippet>): nat {
    if list == [] then 0 else |list[0].payload| + Total(list[1..])
  }

  /** The image for a chip version; there is none without any octets of firmware. */
  function Image(fw: seq<Byte>, eversion: Byte, config: seq<Byte>): Option<seq<Byte>> {
    match FileSnippets(fw)
    case None => None
    case Some(all) =>
      var s := Chosen(all, eversion);
      if Total(s) == 0 then None else Some(Joined(InsertAll([], s)) + config)
  }

  // ----- What the order is -----

  predicate Ascending(list: seq<Snippet>) {
    forall i, j :: 0 <= i < j < |list| ==> list[i].pri <= list[j].pri
  }

  /** The snippets of one priority, in order. */
  function Of(list: seq<Snippet>, pri: Byte): seq<Snippet> {
    if list == [] then [] else if list[0].pri == pri then [list[0]] + Of(list[1..], pri) else Of(list[1..], pri)
  }

  function Reversed(s: seq<Snippet>): seq<Snippet> {
    if s == [] then [] else Reversed(s[1..]) + [s[0]]
  }

  lemma {:induction false} InsertMultiset(list: seq<Snippet>, n: Snippet)
    ensures multiset(Insert(list, n)) == multiset(list) + multiset{n}
  {
    if list != [] && list[0].pri < n.pri {
      InsertMultiset(list[1..], n);
      assert list == [list[0]] + list[1..];
    }
  }

  lemma InsertFloor(list: seq<Snippet>, n: Snippet, low: Byte)
    requires low <= n.pri && forall i :: 0 <= i < |list| ==> low <= list[i].pri
    ensures forall i :: 0 <= i < |Insert(list, n)| ==> low <= Insert(list, n)[i].pri
  {
    var r := Insert(list, n);
    InsertMultiset(list, n);
    forall i | 0 <= i < |r| ensures low <= r[i].pri {
      assert r[i] in multiset(r);
      assert r[i] == n || r[i] in multiset(list);
    }
  }

  lemma {:induction false} InsertAscends(list: seq<Snippet>, n: Snippet)
    requires Ascending(list)
    ensures Ascending(Insert(list, n)) && multiset(Insert(list, n)) == multiset(list) + multiset{n}
  {
    InsertMultiset(list, n);
    if list != [] && list[0].pri < n.pri {
      InsertAscends(list[1..], n);
      InsertFloor(list[1..], n, list[0].pri);
    }
  }

  lemma {:induction false} InsertOf(list: seq<Snippet>, n: Snippet, pri: Byte)
    requires Ascending(list)
    ensures Of(Insert(list, n), pri) == if n.pri == pri then [n] + Of(list, pri) else Of(list, pri)
  {
    var r := Insert(list, n);
    if list == [] || list[0].pri >= n.pri {
      assert r[1..] == list;
    } else {
      assert r[1..] == Insert(list[1..], n);
      InsertOf(list[1..], n, pri);
    }
  }

  lemma {:induction false} InsertAllAscends(list: seq<Snippet>, s: seq<Snippet>)
    requires Ascending(list)
    ensures Ascending(InsertAll(list, s)) && multiset(InsertAll(list, s)) == multiset(list) + multiset(s)
    decreases |s|
  {
    if s != [] {
      InsertAscends(list, s[0]);
      InsertAllAscends(Insert(list, s[0]), s[1..]);
      assert s == [s[0]] + s[1..];
    }
  }

  lemma OfFirst(s: seq<Snippet>, pri: Byte, tail: seq<Snippet>)
    requires s != []
    ensures Reversed(Of(s, pri)) + tail == Reversed(Of(s[1..], pri)) + if s[0].pri == pri then [s[0]] + tail else tail
  {
    var rest := Of(s[1..], pri);
    if s[0].pri == pri {
      assert ([s[0]] + rest)[1..] == rest;
      assert (Reversed(rest) + [s[0]]) + tail == Reversed(rest) + ([s[0]] + tail);
    } else {
      assert [] + rest == rest && [] + tail == tail;
    }
  }

  lemma {:induction false} InsertAllOf(list: seq<Snippet>, s: seq<Snippet>, pri: Byte)
    requires Ascending(list)
    ensures Of(InsertAll(list, s), pri) == Reversed(Of(s, pri)) + Of(list, pri)
    decreases |s|
  {
    if s == [] {
      assert [] + Of(list, pri) == Of(list, pri);
    } else {
      InsertAscends(list, s[0]);
      InsertOf(list, s[0], pri);
      InsertAllOf(Insert(list, s[0]), s[1..], pri);
      OfFirst(s, pri, Of(list, pri));
    }
  }

  /**
   * The list is ascending in priority, a permutation of what was inserted, and among equals the
   * later arrival stands first.
   */
  lemma Arranged(s: seq<Snippet>)
    ensures var r := InsertAll([], s);
      && Ascending(r) && multiset(r) == multiset(s)
      && forall pri: Byte :: Of(r, pri) == Reversed(Of(s, pri))
  {
    InsertAllAscends([], s);
    forall pri: Byte ensures Of(InsertAll([], s), pri) == Reversed(Of(s, pri)) {
      InsertAllOf([], s, pri);
      assert Reversed(Of(s, pri)) + [] == Reversed(Of(s, pri));
    }
  }

  lemma {:induction false} OfHas(list: seq<Snippet>, i: nat)
    requires i < |list|
    ensures Of(list, list[i].pri) != []
  {
    if i > 0 {
      OfHas(list[1..], i - 1);
    }
  }

  lemma {:induction false} OfNone(list: seq<Snippet>, pri: Byte)
    requires Of(list, pri) != []
    ensures exists i :: 0 <= i < |list| && list[i].pri == pri
  {
    if list[0].pri != pri {
      OfNone(list[1..], pri);
      var i :| 0 <= i < |list[1..]| && list[1..][i].pri == pri;
      assert list[i + 1].pri == pri;
    }
  }

  lemma FirstIsLeast(t: seq<Snippet>, r: seq<Snippet>)
    requires Ascending(r) && t != [] && Of(t, t[0].pri) == Of(r, t[0].pri)
    ensures r != [] && r[0].pri <= t[0].pri
  {
    OfHas(t, 0);
    OfNone(r, t[0].pri);
  }

  /** Ascending order and the order within each priority leave no choice. */
  lemma {:induction false} OneOrder(t: seq<Snippet>, r: seq<Snippet>)
    requires Ascending(t) && Ascending(r) && forall pri: Byte :: Of(t, pri) == Of(r, pri)
    ensures t == r
  {
    if t == [] {
      if r != [] {
        OfHas(r, 0);
      }
    } else {
      FirstIsLeast(t, r);
      FirstIsLeast(r, t);
      var p := t[0].pri;
      assert Of(t, p)[0] == t[0] && Of(r, p)[0] == r[0];
      forall pri: Byte ensures Of(t[1..], pri) == Of(r[1..], pri) {
        assert Of(t, pri) == Of(r, pri);
        if pri == p {
          assert Of(t, p)[1..] == Of(t[1..], p) && Of(r, p)[1..] == Of(r[1..], p);
        } else {
        }
      }
      OneOrder(t[1..], r[1..]);
      assert t == [t[0]] + t[1..] && r == [r[0]] + r[1..];
    }
  }

  // ----- How long the image is -----

  lemma {:induction false} JoinedTotal(list: seq<Snippet>)
    ensures |Joined(list)| == Total(list)
  {
    if list != [] {
      JoinedTotal(list[1..]);
    }
  }

  lemma {:induction false} InsertTotal(list: seq<Snippet>, n: Snippet)
    ensures Total(Insert(list, n)) == Total(list) + |n.payload|
  {
    var r := Insert(list, n);
    if list == [] || list[0].pri >= n.pri {
      assert r[1..] == list;
    } else {
      assert r[1..] == Insert(list[1..], n);
      InsertTotal(list[1..], n);
    }
  }

  lemma {:induction false} InsertAllTotal(list: seq<Snippet>, s: seq<Snippet>)
    ensures Total(InsertAll(list, s)) == Total(list) + Total(s)
    decreases |s|
  {
    if s != [] {
      InsertTotal(list, s[0]);
      InsertAllTotal(Insert(list, s[0]), s[1..]);
    }
  }

  /** The image is as long as the chosen payloads and the configuration together, which ends it. */
  lemma ImageLength(fw: seq<Byte>, eversion: Byte, config: seq<Byte>)
    requires Image(fw, eversion, config).Some?
    ensures var s, r := Chosen(FileSnippets(fw).value, eversion), Image(fw, eversion, config).value;
      && |r| == Total(s) + |config| && r[Total(s)..] == config
      && r[..Total(s)] == Joined(InsertAll([], s))
  {
    var s := Chosen(FileSnippets(fw).value, eversion);
    InsertAllTotal([], s);
    JoinedTotal(InsertAll([], s));
  }

  /** An image holds the payloads one after the other, in the order of the list. */
  lemma {:induction false} JoinedConcat(a: seq<Snippet>, b: seq<Snippet>)
    ensures Joined(a + b) == Joined(a) + Joined(b)
    ensures |a| == 1 ==> Joined(a) == a[0].payload
  {
    if a == [] {
      assert a + b == b;
    } else {
      assert (a + b)[1..] == a[1..] + b;
      JoinedConcat(a[1..], b);
      assert a[0].payload + (Joined(a[1..]) + Joined(b)) == a[0].payload + Joined(a[1..]) + Joined(b);
    }
  }
}
