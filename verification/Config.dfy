/** The configuration file: reading its items, and writing them back. */
module Config {
  import opened Bytes
  import opened ConfigMerge

  const MAGIC: seq<Byte> := [0x55, 0xab, 0x23, 0x87]

  const HEADER: nat := 6

  /** An item the file format can hold. */
  predicate Storable(it: Item) {
    it.offset < 0x10000 && |it.data| < 0x100
  }

  predicate AllStorable(items: seq<Item>) {
    forall i :: 0 <= i < |items| ==> Storable(items[i])
  }

  /** Refused with an error, running off the end of the buffer, or the items in order. */
  datatype Outcome = Refused | OffEnd | Read(items: seq<Item>)

  // ----- The format -----

  function ItemBytes(it: Item): (s: seq<Byte>)
    requires Storable(it)
    ensures |s| == 3 + |it.data|
  {
    [it.offset % 0x100, it.offset / 0x100, |it.data|] + it.data
  }

  function Body(items: seq<Item>): seq<Byte>
    requires AllStorable(items)
  {
    if items == [] then [] else ItemBytes(items[0]) + Body(items[1..])
  }

  function Size(items: seq<Item>): nat {
    if items == [] then 0 else 3 + |items[0].data| + Size(items[1..])
  }

  function Printed(items: seq<Item>): seq<Byte>
    requires AllStorable(items)
  {
    var n := Size(items) % 0x10000;
    MAGIC + [n % 0x100, n / 0x100] + Body(items)
  }

  /** The item at `i`, if it lies inside the buffer. */
  function ItemAt(s: seq<Byte>, i: nat): (r: Option<Item>)
    ensures r.Some? ==> Storable(r.value) && i + 3 + |r.value.data| <= |s|
  {
    if i + 3 > |s| then None else
      var n: int := s[i + 2];
      if i + 3 + n > |s| then None else Some(Item(Le16(s, i), s[i + 3..i + 3 + n]))
  }

  /** The items from `i` on. */
  function ItemsFrom(s: seq<Byte>, i: nat): (r: Option<seq<Item>>)
    ensures r.Some? ==> AllStorable(r.value)
    decreases |s| - i
  {
    if i >= |s| then Some([]) else
    match ItemAt(s, i)
    case None => None
    case Some(it) =>
      match ItemsFrom(s, i + 3 + |it.data|)
      case None => None
      case Some(rest) => Some([it] + rest)
  }

  function Parse(s: seq<Byte>): Outcome {
    if |s| < HEADER || s[..4] != MAGIC || Le16(s, 4) != |s| - HEADER then Refused else
    match ItemsFrom(s, HEADER)
    case None => OffEnd
    case Some(items) => Read(items)
  }

  // ----- Reading what was written -----

  lemma ItemAtBytes(s: seq<Byte>, i: nat, it: Item, rest: seq<Byte>, next: nat)
    requires Storable(it) && i <= |s| && s[i..] == ItemBytes(it) + rest && next == i + 3 + |it.data|
    ensures i < next <= |s| && ItemAt(s, i) == Some(it) && s[next..] == rest
  {
    var t, n := s[i..], |it.data|;
    assert t[0] == s[i] && t[1] == s[i + 1] && t[2] == s[i + 2];
    assert t[3..3 + n] == it.data && s[i + 3..i + 3 + n] == t[3..3 + n];
    assert t[3 + n..] == rest && s[next..] == t[3 + n..];
  }

  lemma {:induction false} SizeBody(items: seq<Item>)
    requires AllStorable(items)
    ensures |Body(items)| == Size(items)
  {
    if items != [] {
      SizeBody(items[1..]);
    }
  }

  lemma ItemsFromOne(s: seq<Byte>, i: nat, it: Item, next: nat, rest: seq<Item>, items: seq<Item>)
    requires i < |s| && ItemAt(s, i) == Some(it) && next == i + 3 + |it.data|
    requires ItemsFrom(s, next) == Some(rest) && items == [it] + rest
    ensures ItemsFrom(s, i) == Some(items)
  {}

  lemma {:induction false} ItemsFromBody(s: seq<Byte>, i: nat, items: seq<Item>)
    requires AllStorable(items) && i <= |s| && s[i..] == Body(items)
    ensures ItemsFrom(s, i) == Some(items)
    decreases |items|
  {
    if items != [] {
      var it, rest := items[0], items[1..];
      var next := i + 3 + |it.data|;
      ItemAtBytes(s, i, it, Body(rest), next);
      ItemsFromBody(s, next, rest);
      ItemsFromOne(s, i, it, next, rest, items);
    }
  }

  lemma LengthField(n: nat)
    requires n < 0x10000
    ensures n % 0x100 + 0x100 * (n / 0x100) == n
  {}

  lemma PrintedShape(items: seq<Item>)
    requires AllStorable(items)
    ensures var s := Printed(items);
      && |s| == HEADER + Size(items) && s[..4] == MAGIC && s[HEADER..] == Body(items)
      && Le16(s, 4) == Size(items) % 0x10000
  {
    SizeBody(items);
    LengthField(Size(items) % 0x10000);
  }

  lemma ParseShape(s: seq<Byte>, items: seq<Item>, n: nat)
    requires AllStorable(items) && |s| == HEADER + n && s[..4] == MAGIC && s[HEADER..] == Body(items)
    requires Le16(s, 4) == n % 0x10000
    ensures n < 0x10000 ==> Parse(s) == Read(items)
    ensures n >= 0x10000 ==> Parse(s) == Refused
  {
    if n < 0x10000 {
      ItemsFromBody(s, HEADER, items);
    }
  }

  /** Parsing what was printed gives the items back, as long as the length field can hold the length. */
  lemma ParsePrinted(items: seq<Item>)
    requires AllStorable(items)
    ensures Size(items) < 0x10000 ==> Parse(Printed(items)) == Read(items)
    ensures Size(items) >= 0x10000 ==> Parse(Printed(items)) == Refused
  {
    PrintedShape(items);
    ParseShape(Printed(items), items, Size(items));
  }

  // ----- What the code produces: a buffer of a length counted in 16 bits -----

  /** A buffer as long as its announced length, or writing past the end of one of `room` octets. */
  datatype Product = Overrun(room: nat) | File(octets: seq<Byte>)

  /** The 16-bit count of the whole file, which sizes the buffer and is handed on as its length. */
  function Announced(items: seq<Item>): (r: nat)
    ensures r < 0x10000
  {
    (HEADER + Size(items)) % 0x10000
  }

  function HeaderBytes(items: seq<Item>): (r: seq<Byte>)
    ensures |r| == HEADER
  {
    var n := Size(items) % 0x10000;
    MAGIC + [n % 0x100, n / 0x100]
  }

  /** Laying items down one after the other behind `done`. */
  function Laid(done: seq<Byte>, items: seq<Item>, room: nat): Product
    requires AllStorable(items) && |done| <= room
    decreases |items|
  {
    if items == [] then File(done)
    else if |done| + 3 + |items[0].data| > room then Overrun(room)
    else Laid(done + ItemBytes(items[0]), items[1..], room)
  }

  function Produced(items: seq<Item>): Product
    requires AllStorable(items)
  {
    if Announced(items) < HEADER then Overrun(Announced(items)) else Laid(HeaderBytes(items), items, Announced(items))
  }

  lemma {:induction false} LaidExactly(done: seq<Byte>, items: seq<Item>, room: nat)
    requires AllStorable(items) && |done| <= room
    ensures Laid(done, items, room) == if |done| + Size(items) <= room then File(done + Body(items)) else Overrun(room)
    decreases |items|
  {
    if items == [] {
      assert done + [] == done;
    } else if |done| + 3 + |items[0].data| <= room {
      LaidExactly(done + ItemBytes(items[0]), items[1..], room);
      assert done + ItemBytes(items[0]) + Body(items[1..]) == done + (ItemBytes(items[0]) + Body(items[1..]));
    }
  }

  /** The code produces the printed file exactly if header and items together fit 16 bits, else it overruns. */
  lemma ProducedExactly(items: seq<Item>)
    requires AllStorable(items)
    ensures Produced(items) == File(Printed(items)) <==> HEADER + Size(items) < 0x10000
    ensures HEADER + Size(items) >= 0x10000 ==> Produced(items) == Overrun(Announced(items))
  {
    if Announced(items) >= HEADER {
      LaidExactly(HeaderBytes(items), items, Announced(items));
    }
  }

  /** What is produced reads back as the items. */
  lemma ProducedReads(items: seq<Item>)
    requires AllStorable(items)
    ensures Produced(items).File? ==> Parse(Produced(items).octets) == Read(items)
    ensures Produced(items).File? <==> HEADER + Size(items) < 0x10000
  {
    ProducedExactly(items);
    ParsePrinted(items);
  }

  // ----- Writing what was read -----

  lemma ItemBytesAt(s: seq<Byte>, i: nat)
    requires ItemAt(s, i).Some?
    ensures ItemBytes(ItemAt(s, i).value) == s[i..i + 3 + |ItemAt(s, i).value.data|]
  {
    var it := ItemAt(s, i).value;
    var low: int, high: int := s[i], s[i + 1];
    assert it.offset % 0x100 == low && it.offset / 0x100 == high;
    assert s[i..i + 3 + |it.data|] == [s[i], s[i + 1], s[i + 2]] + s[i + 3..i + 3 + |it.data|];
  }

  lemma {:induction false} BodyOfItems(s: seq<Byte>, i: nat)
    requires i <= |s| && ItemsFrom(s, i).Some?
    ensures Body(ItemsFrom(s, i).value) == s[i..]
    decreases |s| - i
  {
    if i < |s| {
      var it := ItemAt(s, i).value;
      var k := i + 3 + |it.data|;
      BodyOfItems(s, k);
      ItemBytesAt(s, i);
      var items := ItemsFrom(s, i).value;
      assert items[0] == it && items[1..] == ItemsFrom(s, k).value;
      assert s[i..] == s[i..k] + s[k..];
    }
  }

  lemma WordSplit(s: seq<Byte>, n: nat)
    requires |s| >= HEADER && Le16(s, 4) == n
    ensures n % 0x10000 == n && n % 0x100 == s[4] as int && n / 0x100 == s[5] as int
  {
    var low: int, high: int := s[4], s[5];
    assert n == low + 0x100 * high;
  }

  lemma FileParts(s: seq<Byte>)
    requires |s| >= HEADER
    ensures s == s[..4] + [s[4], s[5]] + s[HEADER..]
  {}

  /**
   * Printing what was parsed gives the buffer back, octet for octet; the code does so exactly for
   * buffers below 65536 octets.
   */
  lemma PrintedParse(s: seq<Byte>)
    requires Parse(s).Read?
    ensures AllStorable(Parse(s).items) && Printed(Parse(s).items) == s
    ensures Produced(Parse(s).items) == File(s) <==> |s| < 0x10000
  {
    var items := Parse(s).items;
    BodyOfItems(s, HEADER);
    SizeBody(items);
    WordSplit(s, Size(items));
    FileParts(s);
    ProducedExactly(items);
  }

  /** A buffer parses exactly if it is what some items print to, and then to those items. */
  lemma ParseExactly(s: seq<Byte>, items: seq<Item>)
    requires AllStorable(items)
    ensures Parse(s) == Read(items) <==> Size(items) < 0x10000 && s == Printed(items)
  {
    ParsePrinted(items);
    if Parse(s) == Read(items) {
      PrintedParse(s);
      PrintedShape(items);
    }
  }

  // ----- The whole way: read, merge, write -----

  lemma {:induction false} AbsorbStorable(base: seq<Item>, e: Item)
    requires AllStorable(base) && Storable(e) && Matches(base, e.offset)
    ensures AllStorable(Absorb(base, e))
  {
    var n, rest := base[0], base[1..];
    if n.offset != e.offset {
      LaterMatch(base, e.offset);
      AbsorbStorable(rest, e);
    } else if |e.data| >= |n.data| && Matches(rest, e.offset) {
      AbsorbStorable(rest, e);
    }
  }

  lemma {:induction false} MergeStorable(base: seq<Item>, extras: seq<Item>)
    requires AllStorable(base) && AllStorable(extras)
    ensures AllStorable(MergeInto(base, extras).0) && AllStorable(MergeInto(base, extras).1)
    decreases |extras|
  {
    if extras != [] {
      var e := extras[0];
      if Matches(base, e.offset) {
        AbsorbStorable(base, e);
        MergeStorable(Absorb(base, e), extras[1..]);
      } else {
        MergeStorable(base, extras[1..]);
      }
    }
  }

  /**
   * The configuration produced for a file and some extras is their merge, printed, exactly if that
   * fits 16 bits; it then reads back as the merge. Without extras it is the file itself exactly for
   * files below 65536 octets.
   */
  lemma WholeWay(file: seq<Byte>, extras: seq<Item>)
    requires Parse(file).Read? && AllStorable(extras)
    ensures var merged := Merge(Parse(file).items, extras);
      && AllStorable(merged)
      && (Produced(merged) == File(Printed(merged)) <==> HEADER + Size(merged) < 0x10000)
      && (Produced(merged).File? ==> Parse(Produced(merged).octets) == Read(merged))
      && (extras == [] ==> (Produced(merged) == File(file) <==> |file| < 0x10000))
  {
    PrintedParse(file);
    var items := Parse(file).items;
    MergeStorable(items, extras);
    ProducedExactly(Merge(items, extras));
    ProducedReads(Merge(items, extras));
    if extras == [] {
      assert items + [] == items;
    }
  }

  // ----- A file that is accepted and cannot be written back -----

  /** `n` items of the largest size. */
  function Largest(n: nat): (r: seq<Item>)
    ensures |r| == n && AllStorable(r)
  {
    if n == 0 then [] else [Item(0, seq(255, i => 0))] + Largest(n - 1)
  }

  lemma {:induction false} LargestSize(n: nat)
    ensures Size(Largest(n)) == 258 * n
  {
    if n > 0 {
      LargestSize(n - 1);
      assert Largest(n)[1..] == Largest(n - 1);
    }
  }

  /** 254 such items make a file of 65538 octets: it parses, and without any extras the code overruns. */
  lemma TooLargeFile(n: nat)
    requires n == 254
    ensures var file := Printed(Largest(n));
      && |file| == 65538 && Parse(file) == Read(Largest(n))
      && Produced(Merge(Parse(file).items, [])) == Overrun(2)
  {
    var items := Largest(n);
    LargestSize(n);
    PrintedShape(items);
    ParsePrinted(items);
    ProducedExactly(items);
    assert items + [] == items;
  }

  // ----- The loops -----

  /** Items read so far, and those still to come if they can all be read. */
  function Joined(items: seq<Item>, rest: Option<seq<Item>>): Option<seq<Item>> {
    if rest.Some? then Some(items + rest.value) else None
  }

  lemma JoinedStart(rest: Option<seq<Item>>)
    ensures Joined([], rest) == rest
  {
    if rest.Some? {
      assert [] + rest.value == rest.value;
    }
  }

  lemma JoinedOne(s: seq<Byte>, i: nat, items: seq<Item>, it: Item, next: nat)
    requires i < |s| && ItemAt(s, i) == Some(it) && next == i + 3 + |it.data|
    ensures Joined(items, ItemsFrom(s, i)) == Joined(items + [it], ItemsFrom(s, next))
  {
    var rest := ItemsFrom(s, next);
    if rest.Some? {
      assert items + ([it] + rest.value) == items + [it] + rest.value;
    }
  }

  lemma InWord(x: nat)
    ensures x < 0x10000 ==> x % 0x10000 == x
  {}

  /** Whatever cannot be read at `i` cannot be read from there on. */
  lemma JoinedNone(s: seq<Byte>, i: nat, items: seq<Item>)
    requires i < |s| && ItemAt(s, i).None?
    ensures Joined(items, ItemsFrom(s, i)) == None
  {}

  lemma JoinedEnd(s: seq<Byte>, i: nat, items: seq<Item>)
    requires i >= |s|
    ensures Joined(items, ItemsFrom(s, i)) == Some(items)
  {
    assert items + [] == items;
  }

  /** One item at offset `i` past the header, and the offset of the next, kept in 16 bits by the source. */
  method ReadItem(buf: seq<Byte>, i: nat, items: seq<Item>, ghost whole: Option<seq<Item>>)
    returns (ok: bool, next: nat, now: seq<Item>)
    requires HEADER + i < |buf| < HEADER + 0x10000 && Joined(items, ItemsFrom(buf, HEADER + i)) == whole
    ensures if ok then i < next <= |buf| - HEADER && Joined(now, ItemsFrom(buf, HEADER + next)) == whole else whole.None?
  {
    ghost var at := HEADER + i;
    var it := ItemAt(buf, HEADER + i);
    ok, next, now := it.Some?, 0, items;
    if !ok {
      JoinedNone(buf, at, items);
      return;
    }
    var past := i + 3 + |it.value.data|;
    JoinedOne(buf, at, items, it.value, HEADER + past);
    InWord(past);
    next, now := past % 0x10000, items + [it.value];
  }

  /** The reading loop. */
  method ReadItems(buf: seq<Byte>) returns (r: Option<seq<Item>>)
    requires HEADER <= |buf| < HEADER + 0x10000
    ensures r == ItemsFrom(buf, HEADER)
  {
    var i, items, ok := 0, [], true;
    ghost var whole := ItemsFrom(buf, HEADER);
    JoinedStart(whole);
    while i < |buf| - HEADER
      invariant i <= |buf| - HEADER && Joined(items, ItemsFrom(buf, HEADER + i)) == whole
    {
      ok, i, items := ReadItem(buf, i, items, whole);
      if !ok {
        return None;
      }
    }
    JoinedEnd(buf, HEADER + i, items);
    r := Some(items);
  }

  /** Checks the header, then reads the items. */
  method ParseConfig(buf: seq<Byte>) returns (r: Outcome)
    ensures r == Parse(buf)
  {
    if |buf| < HEADER || buf[..4] != MAGIC || Le16(buf, 4) != |buf| - HEADER {
      return Refused;
    }
    var items := ReadItems(buf);
    r := if items.Some? then Read(items.value) else OffEnd;
  }

  lemma {:induction false} SizeOne(items: seq<Item>, it: Item)
    ensures Size(items + [it]) == Size(items) + 3 + |it.data|
  {
    if items != [] {
      assert (items + [it])[1..] == items[1..] + [it];
      SizeOne(items[1..], it);
    }
  }

  lemma PrefixOne(items: seq<Item>, k: nat)
    requires k < |items|
    ensures items[..k] + [items[k]] == items[..k + 1]
  {}

  /** A sum kept in 16 bits. */
  function Wrap16(x: nat): nat {
    x % 0x10000
  }

  lemma WrapAdd(x: nat, n: nat)
    ensures Wrap16(Wrap16(x) + n) == Wrap16(x + n)
  {}

  /** The two 16-bit lengths: of the whole file and of the items. */
  method MeasureConfig(items: seq<Item>) returns (configLen: nat, dlen: nat)
    ensures configLen == Announced(items) && dlen == Size(items) % 0x10000
  {
    configLen, dlen := HEADER, 0;
    for k := 0 to |items|
      invariant configLen == Wrap16(HEADER + Size(items[..k])) && dlen == Wrap16(Size(items[..k]))
    {
      var n := 3 + |items[k].data|;
      SizeOne(items[..k], items[k]);
      PrefixOne(items, k);
      WrapAdd(HEADER + Size(items[..k]), n);
      WrapAdd(Size(items[..k]), n);
      configLen := Wrap16(configLen + n);
      dlen := Wrap16(dlen + n);
    }
    assert items[..|items|] == items;
  }

  /** Writes one item at `p`. */
  method PrintItem(buf: array<Byte>, p: nat, it: Item) returns (q: nat)
    requires Storable(it) && p + 3 + |it.data| <= buf.Length
    modifies buf
    ensures q == p + 3 + |it.data| && buf[..q] == old(buf[..p]) + ItemBytes(it)
  {
    buf[p] := it.offset % 0x100;
    buf[p + 1] := it.offset / 0x100;
    buf[p + 2] := |it.data|;
    q := p + 3;
    for k := 0 to |it.data|
      invariant q == p + 3 + k
      invariant buf[..q] == old(buf[..p]) + ([it.offset % 0x100, it.offset / 0x100, |it.data|] + it.data[..k])
    {
      buf[q] := it.data[k];
      q := q + 1;
    }
    assert it.data[..|it.data|] == it.data;
  }

  /** Writes the items one after the other, as far as the buffer goes. */
  method PrintBody(buf: array<Byte>, p: nat, items: seq<Item>) returns (r: Product)
    requires AllStorable(items) && p <= buf.Length
    modifies buf
    ensures r == Laid(old(buf[..p]), items, buf.Length)
    ensures r.File? ==> |r.octets| <= buf.Length && buf[..|r.octets|] == r.octets
  {
    var q, rest := p, items;
    while rest != []
      invariant 0 <= q <= buf.Length && AllStorable(rest)
      invariant Laid(buf[..q], rest, buf.Length) == Laid(old(buf[..p]), items, buf.Length)
      decreases |rest|
    {
      if q + 3 + |rest[0].data| > buf.Length {
        return Overrun(buf.Length);
      }
      q := PrintItem(buf, q, rest[0]);
      rest := rest[1..];
    }
    r := File(buf[..q]);
  }

  /** Measures the file, makes a buffer of that length, and writes header and items into it. */
  method PrintConfig(items: seq<Item>) returns (r: Product)
    requires AllStorable(items)
    ensures r == Produced(items)
  {
    var configLen, dlen := MeasureConfig(items);
    if configLen < HEADER {
      return Overrun(configLen);
    }
    var buf := new Byte[configLen];
    buf[0], buf[1], buf[2], buf[3] := 0x55, 0xab, 0x23, 0x87;
    buf[4] := dlen % 0x100;
    buf[5] := dlen / 0x100;
    assert buf[..HEADER] == HeaderBytes(items);
    r := PrintBody(buf, HEADER, items);
  }

  // ----- A known file -----

  /** The signature, a length of eight, and two items, the second of them empty. */
  lemma KnownFile(two: seq<Item>)
    requires two == [Item(0x0102, [0xaa, 0xbb]), Item(0x0003, [])]
    ensures AllStorable(two)
    ensures Printed(two) == [0x55, 0xab, 0x23, 0x87, 0x08, 0x00, 0x02, 0x01, 0x02, 0xaa, 0xbb, 0x03, 0x00, 0x00]
  {
    var one := two[1..];
    assert one[1..] == [];
    assert Body(one) == ItemBytes(one[0]) + [];
    assert Body(two) == [0x02, 0x01, 0x02, 0xaa, 0xbb] + [0x03, 0x00, 0x00];
    assert Size(one) == 3 + Size([]) && Size(two) == 3 + |two[0].data| + Size(one);
  }
}
