/** A writer for new-format firmware files, and that reading what it writes gives the snippets back. */
module PatchFile {
  import opened Bytes
  import opened Patch

  /** A snippet with the two octets of its header that are not looked at. */
  datatype Piece = Piece(x: Snippet, key: Byte, spare: Byte)

  /** A section of snippets, with the two octets behind their number; or one that is passed over. */
  datatype Section =
    | Snippets(dummy: bool, spare: seq<Byte>, pieces: seq<Piece>)
    | Other(opcode: nat, body: seq<Byte>)

  function Two(n: nat): seq<Byte>
    requires n < 0x10000
  {
    [n % 256, n / 256]
  }

  function Four(n: nat): seq<Byte>
    requires n < 0x1_0000_0000
  {
    Two(n % 0x10000) + Two(n / 0x10000)
  }

  predicate PieceOk(p: Piece) {
    |p.x.payload| < 0x1_0000_0000
  }

  function PieceOctets(p: Piece): seq<Byte>
    requires PieceOk(p)
  {
    [p.x.eco, p.x.pri, p.key, p.spare] + Four(|p.x.payload|) + p.x.payload
  }

  predicate PiecesOk(ps: seq<Piece>) {
    forall i :: 0 <= i < |ps| ==> PieceOk(ps[i])
  }

  function PiecesOctets(ps: seq<Piece>): seq<Byte>
    requires PiecesOk(ps)
  {
    if ps == [] then [] else PieceOctets(ps[0]) + PiecesOctets(ps[1..])
  }

  /** What a section holds behind its eight octets. */
  predicate BodyOk(s: Section) {
    match s
    case Snippets(_, spare, ps) => |spare| == 2 && |ps| < 0x10000 && PiecesOk(ps)
    case Other(opcode, _) => opcode < 0x1_0000_0000 && opcode != 1 && opcode != 2
  }

  function Body(s: Section): seq<Byte>
    requires BodyOk(s)
  {
    match s
    case Snippets(_, spare, ps) => Two(|ps|) + spare + PiecesOctets(ps)
    case Other(_, body) => body
  }

  predicate SectionOk(s: Section) {
    BodyOk(s) && |Body(s)| < 0x1_0000_0000
  }

  function Opcode(s: Section): nat {
    match s
    case Snippets(dummy, _, _) => if dummy then 2 else 1
    case Other(opcode, _) => opcode
  }

  function SectionOctets(s: Section): seq<Byte>
    requires SectionOk(s)
  {
    Four(Opcode(s)) + Four(|Body(s)|) + Body(s)
  }

  predicate SectionsOk(ss: seq<Section>) {
    forall i :: 0 <= i < |ss| ==> SectionOk(ss[i])
  }

  function SectionsOctets(ss: seq<Section>): seq<Byte>
    requires SectionsOk(ss)
  {
    if ss == [] then [] else SectionOctets(ss[0]) + SectionsOctets(ss[1..])
  }

  /** The file: 16 octets, the number of sections, two octets, the sections, and whatever follows. */
  function FileOctets(head: seq<Byte>, spare: seq<Byte>, ss: seq<Section>, tail: seq<Byte>): seq<Byte>
    requires |head| == 16 && |spare| == 2 && |ss| < 0x10000 && SectionsOk(ss)
  {
    head + Two(|ss|) + spare + SectionsOctets(ss) + tail
  }

  /** The snippets written, in order. */
  function Xs(ps: seq<Piece>): seq<Snippet> {
    if ps == [] then [] else [ps[0].x] + Xs(ps[1..])
  }

  function Held(s: Section): seq<Snippet> {
    if s.Snippets? then Xs(s.pieces) else []
  }

  function AllHeld(ss: seq<Section>): seq<Snippet> {
    if ss == [] then [] else Held(ss[0]) + AllHeld(ss[1..])
  }

  // ----- Octets at a place -----

  predicate At(fw: seq<Byte>, pos: nat, s: seq<Byte>) {
    pos + |s| <= |fw| && fw[pos..pos + |s|] == s
  }

  lemma AtParts(fw: seq<Byte>, pos: nat, a: seq<Byte>, b: seq<Byte>, next: nat)
    requires At(fw, pos, a + b) && next == pos + |a|
    ensures At(fw, pos, a) && At(fw, next, b)
  {
    var s := fw[pos..pos + |a + b|];
    assert s[..|a|] == a && s[|a|..] == b;
  }

  lemma AtMiddle(a: seq<Byte>, b: seq<Byte>, c: seq<Byte>, pos: nat)
    requires pos == |a|
    ensures At(a + b + c, pos, b)
  {}

  lemma AtOctet(fw: seq<Byte>, pos: nat, s: seq<Byte>, k: nat)
    requires At(fw, pos, s) && k < |s|
    ensures fw[pos + k] == s[k]
  {
    assert fw[pos..pos + |s|][k] == s[k];
  }

  lemma AtTwo(fw: seq<Byte>, pos: nat, n: nat)
    requires n < 0x10000 && At(fw, pos, Two(n))
    ensures Le16(fw, pos) == n
  {
    AtOctet(fw, pos, Two(n), 0);
    AtOctet(fw, pos, Two(n), 1);
  }

  lemma AtFour(fw: seq<Byte>, pos: nat, n: nat)
    requires n < 0x1_0000_0000 && At(fw, pos, Four(n))
    ensures Le32(fw, pos) == n
  {
    AtParts(fw, pos, Two(n % 0x10000), Two(n / 0x10000), pos + 2);
    AtTwo(fw, pos, n % 0x10000);
    AtTwo(fw, pos + 2, n / 0x10000);
  }

  // ----- Reading back -----

  /** The octets of a snippet, one by one. */
  lemma PieceAt(fw: seq<Byte>, pos: nat, p: Piece)
    requires PieceOk(p) && At(fw, pos, PieceOctets(p))
    ensures SnippetAt(fw, pos) == Some(p.x)
  {
    var first: seq<Byte> := [p.x.eco, p.x.pri, p.key, p.spare];
    var n := |p.x.payload|;
    AtParts(fw, pos, first + Four(n), p.x.payload, pos + 8);
    AtParts(fw, pos, first, Four(n), pos + 4);
    AtOctet(fw, pos, first, 0);
    AtOctet(fw, pos, first, 1);
    AtFour(fw, pos + 4, n);
  }

  lemma FirstPiece(fw: seq<Byte>, pos: nat, ps: seq<Piece>, next: nat)
    requires ps != [] && PiecesOk(ps) && At(fw, pos, PiecesOctets(ps)) && next == pos + 8 + |ps[0].x.payload|
    ensures SnippetAt(fw, pos) == Some(ps[0].x) && At(fw, next, PiecesOctets(ps[1..]))
  {
    AtParts(fw, pos, PieceOctets(ps[0]), PiecesOctets(ps[1..]), next);
    PieceAt(fw, pos, ps[0]);
  }

  lemma OneMore(fw: seq<Byte>, pos: nat, n: nat, x: Snippet, rest: seq<Snippet>, next: nat)
    requires n > 0 && SnippetAt(fw, pos) == Some(x) && next == pos + 8 + |x.payload| && SnippetsAt(fw, next, n - 1) == Some(rest)
    ensures SnippetsAt(fw, pos, n) == Some([x] + rest)
  {}

  lemma {:induction false} PiecesAt(fw: seq<Byte>, pos: nat, ps: seq<Piece>)
    requires PiecesOk(ps) && At(fw, pos, PiecesOctets(ps))
    ensures SnippetsAt(fw, pos, |ps|) == Some(Xs(ps))
    decreases |ps|
  {
    if ps != [] {
      var next := pos + 8 + |ps[0].x.payload|;
      FirstPiece(fw, pos, ps, next);
      PiecesAt(fw, next, ps[1..]);
      OneMore(fw, pos, |ps|, ps[0].x, Xs(ps[1..]), next);
    }
  }

  lemma SnippetsBody(fw: seq<Byte>, pos: nat, s: Section)
    requires s.Snippets? && BodyOk(s) && At(fw, pos, Body(s))
    ensures |Body(s)| >= 4 && Le16(fw, pos) == |s.pieces| && SnippetsAt(fw, pos + 4, |s.pieces|) == Some(Xs(s.pieces))
  {
    var count := Two(|s.pieces|);
    AtParts(fw, pos, count + s.spare, PiecesOctets(s.pieces), pos + 4);
    AtParts(fw, pos, count, s.spare, pos + 2);
    AtTwo(fw, pos, |s.pieces|);
    PiecesAt(fw, pos + 4, s.pieces);
  }

  lemma SectionHead(fw: seq<Byte>, pos: nat, s: Section)
    requires SectionOk(s) && At(fw, pos, SectionOctets(s))
    ensures pos + 8 + |Body(s)| <= |fw| && Le32(fw, pos) == Opcode(s) && Le32(fw, pos + 4) == |Body(s)| && At(fw, pos + 8, Body(s))
  {
    AtParts(fw, pos, Four(Opcode(s)) + Four(|Body(s)|), Body(s), pos + 8);
    AtParts(fw, pos, Four(Opcode(s)), Four(|Body(s)|), pos + 4);
    AtFour(fw, pos, Opcode(s));
    AtFour(fw, pos + 4, |Body(s)|);
  }

  lemma SectionAtHolds(fw: seq<Byte>, pos: nat, s: Section)
    requires SectionOk(s) && At(fw, pos, SectionOctets(s))
    ensures pos + 8 <= |fw| && SectionAt(fw, pos) == Some(Held(s))
  {
    SectionHead(fw, pos, s);
    if s.Snippets? {
      SnippetsBody(fw, pos + 8, s);
    }
  }

  lemma {:induction false} SectionsAtHold(fw: seq<Byte>, pos: nat, ss: seq<Section>)
    requires SectionsOk(ss) && At(fw, pos, SectionsOctets(ss))
    ensures SectionsAt(fw, pos, |ss|) == Some(AllHeld(ss))
    decreases |ss|
  {
    if ss != [] {
      var next := pos + 8 + |Body(ss[0])|;
      AtParts(fw, pos, SectionOctets(ss[0]), SectionsOctets(ss[1..]), next);
      SectionHead(fw, pos, ss[0]);
      SectionAtHolds(fw, pos, ss[0]);
      SectionsAtHold(fw, next, ss[1..]);
    }
  }

  lemma FiveParts(a: seq<Byte>, b: seq<Byte>, c: seq<Byte>, d: seq<Byte>, e: seq<Byte>, s: seq<Byte>)
    requires |a| == 16 && |b| == 2 && |c| == 2 && s == a + b + c + d + e
    ensures At(s, 16, b) && At(s, 20, d)
  {
    assert s == a + b + (c + d + e);
    AtMiddle(a, b, c + d + e, 16);
    AtMiddle(a + b + c, d, e, 20);
  }

  /** Reading a written file gives the snippets back, in the order they were written, whatever else it holds. */
  lemma FileRoundTrip(head: seq<Byte>, spare: seq<Byte>, ss: seq<Section>, tail: seq<Byte>)
    requires |head| == 16 && |spare| == 2 && |ss| < 0x10000 && SectionsOk(ss)
    ensures FileSnippets(FileOctets(head, spare, ss, tail)) == Some(AllHeld(ss))
  {
    var fw := FileOctets(head, spare, ss, tail);
    FiveParts(head, Two(|ss|), spare, SectionsOctets(ss), tail, fw);
    AtTwo(fw, 16, |ss|);
    SectionsAtHold(fw, 20, ss);
  }

  // ----- The image of a written file -----

  /** The chosen snippets are those of the chip version, each as often as it is there. */
  lemma {:induction false} ChosenExactly(s: seq<Snippet>, ev: Byte)
    ensures forall x :: multiset(Chosen(s, ev))[x] == if x.eco == ev + 1 then multiset(s)[x] else 0
  {
    if s != [] {
      ChosenExactly(s[1..], ev);
      assert s == [s[0]] + s[1..];
    }
  }

  /** One section with one snippet: its payload, from the ninth octet on, is the image. */
  lemma OnePiece(head: seq<Byte>, spare: seq<Byte>, p: Piece, spare': seq<Byte>, tail: seq<Byte>, ev: Byte, config: seq<Byte>)
    requires |head| == 16 && |spare| == 2 && |spare'| == 2 && PieceOk(p) && |p.x.payload| < 0xffff_fff0 && p.x.payload != []
    ensures var s := Snippets(false, spare', [p]);
      && SectionOk(s)
      && Image(FileOctets(head, spare, [s], tail), ev, config) == if p.x.eco == ev + 1 then Some(p.x.payload + config) else None
  {
    var s := Snippets(false, spare', [p]);
    OneSection(s, p);
    FileRoundTrip(head, spare, [s], tail);
    OneChosen(p.x, ev);
  }

  lemma OneSection(s: Section, p: Piece)
    requires s.Snippets? && |s.spare| == 2 && s.pieces == [p] && PieceOk(p) && |p.x.payload| < 0xffff_fff0
    ensures SectionOk(s) && AllHeld([s]) == [p.x]
  {
    assert PiecesOctets([p][1..]) == [];
    assert PiecesOctets([p]) == PieceOctets(p) + [];
    assert Xs([p]) == [p.x] + Xs([p][1..]);
    assert AllHeld([s]) == Held(s) + [];
  }

  lemma OneChosen(x: Snippet, ev: Byte)
    ensures Chosen([x], ev) == if x.eco == ev + 1 then [x] else []
    ensures InsertAll([], [x]) == [x] && Joined([x]) == x.payload && Total([x]) == |x.payload|
  {
    assert InsertAll([], [x]) == InsertAll(Insert([], x), [x][1..]);
    assert Joined([x]) == x.payload + Joined([x][1..]);
  }
}
