/** The patch list in place: inserting by priority, walking the file, writing the image. */
module PatchLists {
  import opened Bytes
  import opened Ring
  import opened Patch

  type Entry = Node<Snippet>

  lemma {:induction false} InsertAt(list: seq<Snippet>, k: nat, n: Snippet)
    requires k <= |list| && (forall i :: 0 <= i < k ==> list[i].pri < n.pri) && (k < |list| ==> list[k].pri >= n.pri)
    ensures Insert(list, n) == list[..k] + [n] + list[k..]
  {
    if k > 0 {
      InsertAt(list[1..], k - 1, n);
      assert list[..k] == [list[0]] + list[1..][..k - 1] && list[k..] == list[1..][k - 1..];
    } else {
      assert list[..0] + [n] + list == [n] + list;
    }
  }

  /** The items along a walk with one more put in at `p`. */
  function PutIn(ic: seq<Snippet>, p: nat, n: Snippet): seq<Snippet>
    requires p <= |ic|
  {
    ic[..p] + [n] + ic[p..]
  }

  lemma PutInParts(ic: seq<Snippet>, p: nat, n: Snippet)
    requires 0 < p < |ic|
    ensures Middle(PutIn(ic, p, n)) == ic[1..p] + [n] + ic[p..|ic| - 1]
  {
    var r := PutIn(ic, p, n);
    assert forall i :: 0 < i < |r| - 1 ==> r[i] == if i < p then ic[i] else if i == p then n else ic[i - 1];
  }

  lemma MiddleParts(ic: seq<Snippet>, p: nat)
    requires 0 < p < |ic|
    ensures Middle(ic)[..p - 1] == ic[1..p] && Middle(ic)[p - 1..] == ic[p..|ic| - 1]
  {}

  lemma PutInMiddle(ic: seq<Snippet>, p: nat, n: Snippet)
    requires 0 < p < |ic| && (forall i :: 0 < i < p ==> ic[i].pri < n.pri) && (p < |ic| - 1 ==> ic[p].pri >= n.pri)
    ensures Middle(PutIn(ic, p, n)) == Insert(Middle(ic), n)
  {
    PutInParts(ic, p, n);
    MiddleParts(ic, p);
    InsertAt(Middle(ic), p - 1, n);
  }

  lemma InsertedShows(c: seq<Entry>, ic: seq<Snippet>, p: nat, e: Entry)
    requires Shows(c, ic) && p <= |c|
    ensures Shows(Inserted(c, p, e), PutIn(ic, p, e.item))
  {}

  /** A sound patch list. */
  ghost predicate IsList(head: Entry, c: seq<Entry>, ic: seq<Snippet>)
    reads c
  {
    IsRing(c) && Shows(c, ic) && c[0] == head
  }

  /** Puts a snippet before the first one whose priority is not lower. */
  method InsertQueueSort(head: Entry, node: Entry, ghost c: seq<Entry>, ghost ic: seq<Snippet>)
    returns (ghost d: seq<Entry>, ghost id: seq<Snippet>)
    requires IsList(head, c, ic) && node !in c
    modifies c, node
    ensures IsList(head, d, id) && Middle(id) == Insert(Middle(ic), old(node.item))
    ensures forall i :: 0 <= i < |d| ==> d[i] in c || d[i] == node
  {
    ghost var p := 1;
    assert c[0].next == c[1];
    var pos := head.next;
    while pos != head && pos.item.pri < node.item.pri
      invariant 0 < p < |c| && c[p] == pos
      invariant forall i :: 0 < i < p ==> ic[i].pri < node.item.pri
      decreases |c| - p
    {
      assert c[p].next == c[p + 1];
      pos := pos.next;
      p := p + 1;
    }
    assert c[p - 1].next == c[p] && c[p].prev == c[p - 1];
    PutInMiddle(ic, p, node.item);
    d, id := Inserted(c, p, node), PutIn(ic, p, node.item);
    ListAdd(node, pos.prev, pos, c, p);
    InsertedShows(c, ic, p, node);
  }

  /** Puts a new snippet in its place. */
  method AddSnippet(head: Entry, s: Snippet, ghost c: seq<Entry>, ghost ic: seq<Snippet>)
    returns (ghost d: seq<Entry>, ghost id: seq<Snippet>)
    requires IsList(head, c, ic)
    modifies c
    ensures IsList(head, d, id) && Middle(id) == Insert(Middle(ic), s)
    ensures forall i :: 0 <= i < |d| ==> d[i] in c || fresh(d[i])
  {
    var tmp := new Node(s);
    d, id := InsertQueueSort(head, tmp, c, ic);
  }

  // ----- Walking the file -----

  const U32: nat := 0x1_0000_0000

  function Add32(a: nat, b: nat): (r: nat)
    ensures r < U32
  {
    (a + b) % U32
  }

  /** The list and 32-bit length after `n` snippets from `pos` on. */
  ghost function Gathered(fw: seq<Byte>, pos: nat, n: nat, ev: Byte, list: seq<Snippet>, len: nat): Option<(seq<Snippet>, nat)>
    decreases n
  {
    if n == 0 then Some((list, len)) else
    match SnippetAt(fw, pos)
    case None => None
    case Some(s) =>
      if s.eco == ev + 1 then Gathered(fw, pos + 8 + |s.payload|, n - 1, ev, Insert(list, s), Add32(len, |s.payload|))
      else Gathered(fw, pos + 8 + |s.payload|, n - 1, ev, list, len)
  }

  /** The list and length the snippets `s` lead to. */
  ghost function After(s: Option<seq<Snippet>>, ev: Byte, list: seq<Snippet>, len: nat): Option<(seq<Snippet>, nat)> {
    if s.None? then None
    else Some((InsertAll(list, Chosen(s.value, ev)), Add32(len, Total(Chosen(s.value, ev)))))
  }

  lemma LenOne(len: nat, n: nat, rest: nat)
    ensures Add32(Add32(len, n), rest) == Add32(len, n + rest)
  {}

  lemma AfterFirst(s: Snippet, rest: seq<Snippet>, ev: Byte, list: seq<Snippet>, len: nat)
    ensures After(Some([s] + rest), ev, list, len)
         == if s.eco == ev + 1 then After(Some(rest), ev, Insert(list, s), Add32(len, |s.payload|))
            else After(Some(rest), ev, list, len)
  {
    assert ([s] + rest)[1..] == rest;
    if s.eco == ev + 1 {
      var c := Chosen(rest, ev);
      assert ([s] + c)[1..] == c;
      LenOne(len, |s.payload|, Total(c));
    }
  }

  lemma {:induction false} GatheredIs(fw: seq<Byte>, pos: nat, n: nat, ev: Byte, list: seq<Snippet>, len: nat)
    requires len < U32
    ensures Gathered(fw, pos, n, ev, list, len) == After(SnippetsAt(fw, pos, n), ev, list, len)
    decreases n
  {
    if n > 0 && SnippetAt(fw, pos).Some? {
      var s := SnippetAt(fw, pos).value;
      var next := pos + 8 + |s.payload|;
      GatheredIs(fw, next, n - 1, ev, Insert(list, s), Add32(len, |s.payload|));
      GatheredIs(fw, next, n - 1, ev, list, len);
      if SnippetsAt(fw, next, n - 1).Some? {
        AfterFirst(s, SnippetsAt(fw, next, n - 1).value, ev, list, len);
      }
    }
  }

  lemma GatheredOne(fw: seq<Byte>, pos: nat, n: nat, ev: Byte, list: seq<Snippet>, len: nat, s: Snippet, next: nat)
    requires n > 0 && SnippetAt(fw, pos) == Some(s) && next == pos + 8 + |s.payload|
    ensures Gathered(fw, pos, n, ev, list, len)
         == if s.eco == ev + 1 then Gathered(fw, next, n - 1, ev, Insert(list, s), Add32(len, |s.payload|))
            else Gathered(fw, next, n - 1, ev, list, len)
  {}

  /** One snippet: put in its place if it is for this chip version. */
  method InsertOne(fw: seq<Byte>, pos: nat, ghost n: nat, ev: Byte, head: Entry, len0: nat, ghost c: seq<Entry>, ghost ic: seq<Snippet>)
    returns (ok: bool, next: nat, len: nat, ghost d: seq<Entry>, ghost id: seq<Snippet>)
    requires IsList(head, c, ic) && n > 0 && len0 < U32
    modifies c
    ensures IsList(head, d, id) && len < U32 && forall i :: 0 <= i < |d| ==> d[i] in c || fresh(d[i])
    ensures Gathered(fw, pos, n, ev, Middle(ic), len0) == if ok then Gathered(fw, next, n - 1, ev, Middle(id), len) else None
  {
    var s := SnippetAt(fw, pos);
    ok, next, len, d, id := s.Some?, pos, len0, c, ic;
    if ok {
      next := pos + 8 + |s.value.payload|;
      GatheredOne(fw, pos, n, ev, Middle(ic), len0, s.value, next);
      if s.value.eco == ev + 1 {
        len := Add32(len, |s.value.payload|);
        d, id := AddSnippet(head, s.value, c, ic);
      }
    }
  }

  /** Inserts the snippets of one section that are for this chip version. */
  method InsertPatch(fw: seq<Byte>, section: nat, ev: Byte, head: Entry, len0: nat, ghost c: seq<Entry>, ghost ic: seq<Snippet>)
    returns (ok: bool, len: nat, ghost d: seq<Entry>, ghost id: seq<Snippet>)
    requires IsList(head, c, ic) && section + 12 <= |fw| && len0 < U32
    modifies c
    ensures IsList(head, d, id) && len < U32 && forall i :: 0 <= i < |d| ==> d[i] in c || fresh(d[i])
    ensures Gathered(fw, section + 12, Le16(fw, section + 8), ev, Middle(ic), len0)
         == if ok then Some((Middle(id), len)) else None
  {
    var numbers := Le16(fw, section + 8);
    var pos: nat := section + 12;
    d, id, len, ok := c, ic, len0, true;
    ghost var whole := Gathered(fw, pos, numbers, ev, Middle(ic), len0);
    var i := 0;
    while i < numbers
      invariant 0 <= i <= numbers && len < U32
      invariant IsList(head, d, id) && forall k :: 0 <= k < |d| ==> d[k] in c || fresh(d[k])
      invariant ok && Gathered(fw, pos, numbers - i, ev, Middle(id), len) == whole
    {
      ok, pos, len, d, id := InsertOne(fw, pos, numbers - i, ev, head, len, d, id);
      if !ok {
        return;
      }
      i := i + 1;
    }
  }

  // ----- All sections -----

  /** The list and length after the section at `pos`. */
  ghost function SectionGathered(fw: seq<Byte>, pos: nat, ev: Byte, list: seq<Snippet>, len: nat): Option<(seq<Snippet>, nat)>
    requires pos + SECTION_HEADER <= |fw|
  {
    var opcode := Le32(fw, pos);
    if opcode != SNIPPETS && opcode != DUMMY_HEADER then Some((list, len))
    else if pos + 12 > |fw| then None
    else Gathered(fw, pos + 12, Le16(fw, pos + 8), ev, list, len)
  }

  /** The list and length after `n` sections from `pos` on. */
  ghost function AllGathered(fw: seq<Byte>, pos: nat, n: nat, ev: Byte, list: seq<Snippet>, len: nat): Option<(seq<Snippet>, nat)>
    decreases n
  {
    if n == 0 then Some((list, len))
    else if pos + SECTION_HEADER > |fw| then None
    else
      match SectionGathered(fw, pos, ev, list, len)
      case None => None
      case Some(r) => AllGathered(fw, pos + SECTION_HEADER + Le32(fw, pos + 4), n - 1, ev, r.0, r.1)
  }

  lemma {:induction false} ChosenConcat(s: seq<Snippet>, t: seq<Snippet>, ev: Byte)
    ensures Chosen(s + t, ev) == Chosen(s, ev) + Chosen(t, ev)
  {
    if s == [] {
      assert s + t == t && [] + Chosen(t, ev) == Chosen(t, ev);
    } else {
      assert (s + t)[1..] == s[1..] + t;
      ChosenConcat(s[1..], t, ev);
      assert [s[0]] + (Chosen(s[1..], ev) + Chosen(t, ev)) == [s[0]] + Chosen(s[1..], ev) + Chosen(t, ev);
    }
  }

  lemma {:induction false} InsertAllConcat(list: seq<Snippet>, s: seq<Snippet>, t: seq<Snippet>)
    ensures InsertAll(list, s + t) == InsertAll(InsertAll(list, s), t)
    ensures Total(s + t) == Total(s) + Total(t)
    decreases |s|
  {
    if s == [] {
      assert s + t == t;
    } else {
      assert (s + t)[1..] == s[1..] + t;
      InsertAllConcat(Insert(list, s[0]), s[1..], t);
    }
  }

  lemma AfterConcat(s: seq<Snippet>, t: seq<Snippet>, ev: Byte, list: seq<Snippet>, len: nat)
    ensures After(Some(s + t), ev, list, len)
         == After(Some(t), ev, After(Some(s), ev, list, len).value.0, After(Some(s), ev, list, len).value.1)
  {
    ChosenConcat(s, t, ev);
    InsertAllConcat(list, Chosen(s, ev), Chosen(t, ev));
    LenOne(len, Total(Chosen(s, ev)), Total(Chosen(t, ev)));
  }

  lemma SectionGatheredIs(fw: seq<Byte>, pos: nat, ev: Byte, list: seq<Snippet>, len: nat)
    requires len < U32 && pos + SECTION_HEADER <= |fw|
    ensures SectionGathered(fw, pos, ev, list, len) == After(SectionAt(fw, pos), ev, list, len)
  {
    if pos + 12 <= |fw| {
      GatheredIs(fw, pos + 12, Le16(fw, pos + 8), ev, list, len);
    }
  }

  lemma {:induction false} AllGatheredIs(fw: seq<Byte>, pos: nat, n: nat, ev: Byte, list: seq<Snippet>, len: nat)
    requires len < U32
    ensures AllGathered(fw, pos, n, ev, list, len) == After(SectionsAt(fw, pos, n), ev, list, len)
    decreases n
  {
    if n > 0 && pos + SECTION_HEADER <= |fw| {
      SectionGatheredIs(fw, pos, ev, list, len);
      var s := SectionAt(fw, pos);
      if s.Some? {
        var next := pos + SECTION_HEADER + Le32(fw, pos + 4);
        var r := After(s, ev, list, len).value;
        AllGatheredIs(fw, next, n - 1, ev, r.0, r.1);
        var t := SectionsAt(fw, next, n - 1);
        if t.Some? {
          AfterConcat(s.value, t.value, ev, list, len);
        }
      }
    }
  }

  /** One section, whatever its opcode. */
  method Section(fw: seq<Byte>, pos: nat, ev: Byte, head: Entry, len0: nat, ghost c: seq<Entry>, ghost ic: seq<Snippet>)
    returns (ok: bool, len: nat, ghost d: seq<Entry>, ghost id: seq<Snippet>)
    requires IsList(head, c, ic) && pos + SECTION_HEADER <= |fw| && len0 < U32
    modifies c
    ensures IsList(head, d, id) && len < U32 && forall i :: 0 <= i < |d| ==> d[i] in c || fresh(d[i])
    ensures SectionGathered(fw, pos, ev, Middle(ic), len0) == if ok then Some((Middle(id), len)) else None
  {
    var opcode := Le32(fw, pos);
    ok, len, d, id := true, len0, c, ic;
    if opcode == SNIPPETS || opcode == DUMMY_HEADER {
      if pos + 12 > |fw| {
        ok := false;
      } else {
        ok, len, d, id := InsertPatch(fw, pos, ev, head, len0, c, ic);
      }
    }
  }

  /** The section loop, from an empty list. */
  method GetPatchHeader(fw: seq<Byte>, ev: Byte, head: Entry, ghost c: seq<Entry>, ghost ic: seq<Snippet>)
    returns (ok: bool, len: nat, ghost d: seq<Entry>, ghost id: seq<Snippet>)
    requires IsList(head, c, ic) && |c| == 2 && |fw| >= FIRST_SECTION
    modifies c
    ensures IsList(head, d, id) && forall i :: 0 <= i < |d| ==> d[i] in c || fresh(d[i])
    ensures After(FileSnippets(fw), ev, [], 0) == if ok then Some((Middle(id), len)) else None
  {
    var sections := Le16(fw, 16);
    var pos: nat := FIRST_SECTION;
    len, d, id := 0, c, ic;
    assert Middle(ic) == [];
    AllGatheredIs(fw, pos, sections, ev, [], 0);
    ghost var whole := AllGathered(fw, pos, sections, ev, [], 0);
    var i := 0;
    while i < sections
      invariant 0 <= i <= sections && len < U32
      invariant IsList(head, d, id) && forall k :: 0 <= k < |d| ==> d[k] in c || fresh(d[k])
      invariant AllGathered(fw, pos, sections - i, ev, Middle(id), len) == whole
    {
      ok := pos + SECTION_HEADER <= |fw|;
      if !ok {
        return;
      }
      ok, len, d, id := Section(fw, pos, ev, head, len, d, id);
      if !ok {
        return;
      }
      pos := pos + SECTION_HEADER + Le32(fw, pos + 4);
      i := i + 1;
    }
    ok := true;
  }

  // ----- Writing the image -----

  method CopyInto(buf: array<Byte>, at: nat, data: seq<Byte>)
    requires at + |data| <= buf.Length
    modifies buf
    ensures buf[..at + |data|] == old(buf[..at]) + data
  {
    for k := 0 to |data|
      invariant buf[..at + k] == old(buf[..at]) + data[..k]
    {
      buf[at + k] := data[k];
    }
    assert data[..|data|] == data;
  }

  lemma FirstOut(id: seq<Snippet>)
    requires |id| > 2
    ensures Joined(Middle(id)) == id[1].payload + Joined(Middle(id[..1] + id[2..]))
    ensures Total(Middle(id)) == |id[1].payload| + Total(Middle(id[..1] + id[2..]))
  {
    assert Middle(id)[1..] == Middle(id[..1] + id[2..]);
  }

  /** Takes the first snippet off the list. */
  method TakeFirst(head: Entry, pos: Entry, ghost c: seq<Entry>, ghost ic: seq<Snippet>)
    requires IsList(head, c, ic) && |c| > 2 && c[1] == pos
    modifies c
    ensures IsList(head, Without(c, 1), ic[..1] + ic[2..])
  {
    ListDelInit(pos, c, 1);
    WithoutShows(c, ic, 1);
  }

  /** Writes the first payload and takes its snippet off the list. */
  method WriteFirst(buf: array<Byte>, at: nat, head: Entry, pos: Entry, ghost c: seq<Entry>, ghost ic: seq<Snippet>)
    requires IsList(head, c, ic) && |c| > 2 && c[1] == pos && at + |ic[1].payload| <= buf.Length
    modifies buf, c
    ensures IsList(head, Without(c, 1), ic[..1] + ic[2..])
    ensures buf[..at + |ic[1].payload|] == old(buf[..at]) + ic[1].payload
  {
    CopyInto(buf, at, pos.item.payload);
    TakeFirst(head, pos, c, ic);
  }

  ghost predicate Within(d: seq<Entry>, c: seq<Entry>) {
    forall i :: 0 <= i < |d| ==> d[i] in c
  }

  lemma WithinWithout(d: seq<Entry>, c: seq<Entry>, rest: seq<Entry>)
    requires Within(d, c) && |d| > 2 && rest == Without(d, 1)
    ensures Within(rest, c)
  {}

  /** So far `at` octets are written; with the list from `pos` on they come to `all`. */
  ghost predicate Writing(buf: array<Byte>, at: nat, head: Entry, pos: Entry, d: seq<Entry>, id: seq<Snippet>, w: Whole)
    reads buf, d
  {
    && IsList(head, d, id) && d[1] == pos && Within(d, w.c) && at <= buf.Length && at + Total(Middle(id)) == w.total
    && buf[..at] + Joined(Middle(id)) == w.all
  }

  /** The entries of the list, its payloads joined, and their length. */
  datatype Whole = Whole(c: seq<Entry>, all: seq<Byte>, total: nat)

  lemma FirstWritten(out: seq<Byte>, id: seq<Snippet>, all: seq<Byte>, total: nat)
    requires |id| > 2 && out + Joined(Middle(id)) == all && |out| + Total(Middle(id)) == total
    ensures (out + id[1].payload) + Joined(Middle(id[..1] + id[2..])) == all
    ensures |out| + |id[1].payload| + Total(Middle(id[..1] + id[2..])) == total
  {
    FirstOut(id);
  }

  lemma Nonempty(head: Entry, pos: Entry, d: seq<Entry>, id: seq<Snippet>)
    requires IsList(head, d, id) && d[1] == pos
    ensures pos != head <==> |d| > 2
    ensures |d| > 2 ==> pos.next == d[2] && pos.item == id[1]
  {}

  method WriteNext(buf: array<Byte>, at: nat, head: Entry, pos: Entry, ghost d: seq<Entry>, ghost id: seq<Snippet>, ghost w: Whole)
    returns (ok: bool, at': nat, next: Entry, ghost rest: seq<Entry>, ghost ir: seq<Snippet>)
    requires Writing(buf, at, head, pos, d, id, w) && pos != head
    modifies buf, d
    ensures if ok then Writing(buf, at', head, next, rest, ir, w) && |rest| < |d| else w.total > buf.Length
  {
    Nonempty(head, pos, d, id);
    FirstOut(id);
    at', next, rest, ir := at + |pos.item.payload|, pos.next, d, id;
    ok := at' <= buf.Length;
    if ok {
      FirstWritten(buf[..at], id, w.all, w.total);
      WriteFirst(buf, at, head, pos, d, id);
      rest, ir := Without(d, 1), id[..1] + id[2..];
      WithinWithout(d, w.c, rest);
    }
  }

  lemma AllWritten(buf: array<Byte>, at: nat, head: Entry, pos: Entry, d: seq<Entry>, id: seq<Snippet>, w: Whole)
    requires Writing(buf, at, head, pos, d, id, w) && pos == head
    ensures w.total == at && buf[..at] == w.all
  {
    Nonempty(head, pos, d, id);
  }

  /** Writes the payloads in list order, taking each off the list; stops where the buffer ends. */
  method WritePatches(buf: array<Byte>, head: Entry, ghost c: seq<Entry>, ghost ic: seq<Snippet>) returns (ok: bool)
    requires IsList(head, c, ic)
    modifies buf, c
    ensures ok <==> Total(Middle(ic)) <= buf.Length
    ensures ok ==> buf[..Total(Middle(ic))] == Joined(Middle(ic))
  {
    ghost var d, id, w := c, ic, Whole(c, Joined(Middle(ic)), Total(Middle(ic)));
    assert c[0].next == c[1];
    assert buf[..0] + w.all == w.all;
    var pos: Entry := head.next;
    var at: nat := 0;
    while pos != head
      invariant Writing(buf, at, head, pos, d, id, w)
      decreases |d|
    {
      ok, at, pos, d, id := WriteNext(buf, at, head, pos, d, id, w);
      if !ok {
        return;
      }
    }
    AllWritten(buf, at, head, pos, d, id, w);
    ok := true;
  }

  // ----- The length in 32 bits -----

  const I31: nat := 0x8000_0000

  /** A 32-bit length taken for a signed number. */
  function Signed(len: nat): int
    requires len < U32
  {
    if len < I31 then len else len - U32
  }

  /** The size asked for. Memory is refused if it does not come out as a 31-bit number. */
  function Room(len: nat, config: nat): Option<nat>
    requires len < U32
  {
    var n := Signed(len) + config;
    if 0 <= n < I31 then Some(n) else None
  }

  /** No image; one that does not fit the memory asked for; or an image. */
  datatype Build = NoImage | Overrun | Made(image: seq<Byte>)

  /** What becomes of a list whose length was added up in 32 bits. */
  function BuiltFrom(list: seq<Snippet>, len: nat, config: seq<Byte>): Build
    requires len < U32
  {
    if len == 0 then NoImage else
      match Room(len, |config|)
      case None => NoImage
      case Some(n) => if Total(list) > n then Overrun else Made(Joined(list) + config)
  }

  ghost function Built(fw: seq<Byte>, ev: Byte, config: seq<Byte>): Build {
    match After(FileSnippets(fw), ev, [], 0)
    case None => NoImage
    case Some(r) => BuiltFrom(r.0, r.1, config)
  }

  lemma Add32Zero(n: nat)
    ensures Add32(0, n) == n % U32
  {}

  lemma RoomExactly(total: nat, config: nat, len: nat)
    requires len == total % U32 && config < I31 && total > 0
    ensures len != 0 && Room(len, config).Some? && total <= Room(len, config).value <==> total + config < I31
  {}

  /** How many octets the snippets chosen from a file have, if it can be read. */
  function ChosenTotal(fw: seq<Byte>, ev: Byte): Option<nat> {
    match FileSnippets(fw)
    case None => None
    case Some(all) => Some(Total(Chosen(all, ev)))
  }

  /**
   * The specified image is what the code makes exactly if the chosen snippets and the configuration
   * have less than 2^31 octets together.
   */
  lemma BuiltExactly(fw: seq<Byte>, ev: Byte, config: seq<Byte>)
    requires |config| < I31
    ensures match Image(fw, ev, config)
      case None => Built(fw, ev, config) == NoImage
      case Some(image) =>
        && ChosenTotal(fw, ev).Some?
        && (Built(fw, ev, config) == Made(image) <==> ChosenTotal(fw, ev).value + |config| < 0x8000_0000)
  {
    if FileSnippets(fw).Some? {
      var s := Chosen(FileSnippets(fw).value, ev);
      var list := InsertAll([], s);
      InsertAllTotal([], s);
      Add32Zero(Total(s));
      JoinedTotal(list);
      if Total(s) > 0 {
        RoomExactly(Total(s), |config|, Total(s) % U32);
      }
    }
  }

  /**
   * What becomes of any total: the length is kept in 32 bits, where zero means no image, and taken for
   * signed; without memory for it there is no image, and memory that is too small is run over.
   */
  lemma BuiltCases(fw: seq<Byte>, ev: Byte, config: seq<Byte>, total: nat, n: int)
    requires ChosenTotal(fw, ev) == Some(total)
    requires n == (total + 0x8000_0000) % 0x1_0000_0000 - 0x8000_0000 + |config|
    ensures Built(fw, ev, config) == NoImage <==> total % 0x1_0000_0000 == 0 || n < 0 || n >= 0x8000_0000
    ensures Built(fw, ev, config) == Overrun <==> total % 0x1_0000_0000 != 0 && 0 <= n < 0x8000_0000 && n < total
  {
    InsertAllTotal([], Chosen(FileSnippets(fw).value, ev));
    Add32Zero(total);
    SignedIs(total);
  }

  lemma SignedIs(total: nat)
    ensures Signed(total % U32) == (total + 0x8000_0000) % 0x1_0000_0000 - 0x8000_0000
  {}

  /** The payloads and the configuration are written into memory of size `n`. */
  method Write(n: nat, config: seq<Byte>, head: Entry, ghost d: seq<Entry>, ghost id: seq<Snippet>)
    returns (buf: array<Byte>, ok: bool)
    requires IsList(head, d, id) && (Total(Middle(id)) <= n ==> n == Total(Middle(id)) + |config|)
    modifies d
    ensures ok <==> Total(Middle(id)) <= n
    ensures ok ==> buf[..] == Joined(Middle(id)) + config
  {
    buf := new Byte[n];
    ok := WritePatches(buf, head, d, id);
    if ok {
      CopyInto(buf, n - |config|, config);
      assert buf[..] == buf[..n];
    }
  }

  lemma RoomIs(total: nat, config: nat, len: nat, n: nat)
    requires len == total % U32 && config < I31 && Room(len, config) == Some(n)
    ensures total <= n ==> n == total + config
  {}

  lemma GatheredTotal(fw: seq<Byte>, ev: Byte, list: seq<Snippet>, len: nat)
    requires After(FileSnippets(fw), ev, [], 0) == Some((list, len))
    ensures len == Total(list) % U32
  {
    var s := Chosen(FileSnippets(fw).value, ev);
    InsertAllTotal([], s);
    Add32Zero(Total(s));
  }

  /** The image for a chip version and a configuration, or none. */
  method BuildImage(fw: seq<Byte>, ev: Byte, config: seq<Byte>) returns (buf: array?<Byte>, overrun: bool)
    requires |fw| >= FIRST_SECTION && |config| < I31
    ensures match Built(fw, ev, config)
      case NoImage => buf == null && !overrun
      case Overrun => overrun
      case Made(image) => !overrun && buf != null && buf[..] == image
  {
    var head := new Node(Snippet(0, 0, []));
    ghost var c, ic := [head, head], [head.item, head.item];
    var ok, len;
    ghost var d, id;
    buf, overrun := null, false;
    ok, len, d, id := GetPatchHeader(fw, ev, head, c, ic);
    if !ok || len == 0 {
      return;
    }
    GatheredTotal(fw, ev, Middle(id), len);
    var n := (if len < I31 then len else len - U32) + |config|;
    if n < 0 || n >= I31 {
      return;
    }
    RoomIs(Total(Middle(id)), |config|, len, n);
    buf, ok := Write(n, config, head, d, id);
    overrun := !ok;
  }
}
