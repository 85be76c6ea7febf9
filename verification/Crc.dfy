/**
 * The 16-bit data integrity check of the three-wire transport: the CCITT polynomial, register
 * preset to all ones, bits fed least significant first.
 */
module Crc {
  import opened Bytes

  const Init: bv16 := 0xffff

  /** The sixteen-entry table, indexed by one nibble. */
  function Table(n: bv16): bv16 {
    if n == 0x0 then 0x0000 else if n == 0x1 then 0x1081 else
    if n == 0x2 then 0x2102 else if n == 0x3 then 0x3183 else
    if n == 0x4 then 0x4204 else if n == 0x5 then 0x5285 else
    if n == 0x6 then 0x6306 else if n == 0x7 then 0x7387 else
    if n == 0x8 then 0x8408 else if n == 0x9 then 0x9489 else
    if n == 0xa then 0xa50a else if n == 0xb then 0xb58b else
    if n == 0xc then 0xc60c else if n == 0xd then 0xd68d else
    if n == 0xe then 0xe70e else 0xf78f
  }

  /** The register after the low nibble of `d`. */
  function Nibble(reg: bv16, d: bv16): bv16 {
    (reg >> 4) ^ Table((reg ^ d) & 0x000f)
  }

  /** The register after one octet: low nibble, then high nibble. */
  function Update(reg: bv16, d: bv16): bv16 {
    Nibble(Nibble(reg, d), d >> 4)
  }

  /** Eight bits, least significant first, as the low half of a word. */
  function Pack(b0: bool, b1: bool, b2: bool, b3: bool, b4: bool, b5: bool, b6: bool, b7: bool): bv16 {
    (if b0 then 0x01 else 0) | (if b1 then 0x02 else 0) | (if b2 then 0x04 else 0) | (if b3 then 0x08 else 0) |
    (if b4 then 0x10 else 0) | (if b5 then 0x20 else 0) | (if b6 then 0x40 else 0) | (if b7 then 0x80 else 0)
  }

  /** The number with those eight bits. */
  function Weigh(b0: bool, b1: bool, b2: bool, b3: bool, b4: bool, b5: bool, b6: bool, b7: bool): Byte {
    (if b0 then 0x01 else 0) + (if b1 then 0x02 else 0) + (if b2 then 0x04 else 0) + (if b3 then 0x08 else 0) +
    (if b4 then 0x10 else 0) + (if b5 then 0x20 else 0) + (if b6 then 0x40 else 0) + (if b7 then 0x80 else 0)
  }

  /** An octet widened to the register. */
  function Octet(b: Byte): bv16 {
    var q1 := b / 2;
    var q2 := q1 / 2;
    var q3 := q2 / 2;
    var q4 := q3 / 2;
    var q5 := q4 / 2;
    var q6 := q5 / 2;
    Pack(b % 2 == 1, q1 % 2 == 1, q2 % 2 == 1, q3 % 2 == 1, q4 % 2 == 1, q5 % 2 == 1, q6 % 2 == 1, q6 / 2 == 1)
  }

  /** The low octet of a word. */
  function Low(w: bv16): Byte {
    Weigh(w & 0x01 != 0, w & 0x02 != 0, w & 0x04 != 0, w & 0x08 != 0,
          w & 0x10 != 0, w & 0x20 != 0, w & 0x40 != 0, w & 0x80 != 0)
  }

  /** The register after one octet of a message. */
  function Step(reg: bv16, b: Byte): bv16 {
    Update(reg, Octet(b))
  }

  /** Feeds octets or bits, first one first, to a register stepped by `f`. */
  function Feed<R(!new), D>(f: (R, D) -> R, reg: R, m: seq<D>): R {
    if m == [] then reg else f(Feed(f, reg, m[..|m| - 1]), m[|m| - 1])
  }

  /** The register after the message `m`. */
  function Sum(reg: bv16, m: seq<Byte>): bv16 {
    Feed(Step, reg, m)
  }

  /** The register with its sixteen bits in the opposite order, as it is sent. */
  function Reverse(x: bv16): bv16 {
    var y := ((x & 0x5555) << 1) | ((x >> 1) & 0x5555);
    var z := ((y & 0x3333) << 2) | ((y >> 2) & 0x3333);
    var w := ((z & 0x0f0f) << 4) | ((z >> 4) & 0x0f0f);
    (w << 8) | (w >> 8)
  }

  /** The check octets sent after the message whose register is `reg`. */
  function Trailer(reg: bv16): seq<Byte> {
    [Low(Reverse(reg) >> 8), Low(Reverse(reg))]
  }

  /** The big-endian word of the two check octets received. */
  function Join(high: Byte, low: Byte): bv16 {
    (Octet(high) << 8) | Octet(low)
  }

  // ----- The table against the bit-serial shift register -----

  /**
   * One bit of the shift register for x^16 + x^12 + x^5 + 1, fed from the top: the register moves
   * down one place and the bit fed back enters at places 15, 10 and 3.
   */
  function BitStep(reg: bv16, bit: bv16): bv16 {
    var b := (reg ^ bit) & 1;
    (reg >> 1) ^ (b << 15) ^ (b << 10) ^ (b << 3)
  }

  /** The low four bits of `d`, least significant first. */
  function FourOf(d: bv16): seq<bv16> {
    [d & 1, (d >> 1) & 1, (d >> 2) & 1, (d >> 3) & 1]
  }

  /** The bits of a message in the order they are sent. */
  function Bits(m: seq<Byte>): seq<bv16> {
    if m == [] then [] else
      var d := Octet(m[|m| - 1]);
      Bits(m[..|m| - 1]) + FourOf(d) + FourOf(d >> 4)
  }

  /** What the shift register holds after the message `m`. */
  function Serial(reg: bv16, m: seq<Byte>): bv16 {
    Feed(BitStep, reg, Bits(m))
  }

  lemma TableForm(n: bv16)
    requires n <= 0xf
    ensures Table(n) == n ^ (n << 7) ^ (n << 12)
  {}

  lemma XorAssoc(a: bv16, t: bv16, x: bv16, y: bv16, z: bv16)
    requires t == x ^ y ^ z
    ensures a ^ t == a ^ x ^ y ^ z
  {}

  lemma LowBits(x: bv16)
    ensures x & 0xf <= 0xf
  {}

  lemma NibbleForm(reg: bv16, d: bv16, n: bv16)
    requires n == (reg ^ d) & 0xf
    ensures n <= 0xf
    ensures Nibble(reg, d) == (reg >> 4) ^ n ^ (n << 7) ^ (n << 12)
  {
    LowBits(reg ^ d);
    TableForm(n);
    XorAssoc(reg >> 4, Table(n), n, n << 7, n << 12);
  }

  lemma BitForm(reg: bv16, bit: bv16, b: bv16, r: bv16)
    requires b == (reg ^ bit) & 1 && r == BitStep(reg, bit)
    ensures r == (reg >> 1) ^ (b << 15) ^ (b << 10) ^ (b << 3)
  {}

  lemma FourBits(reg: bv16, d: bv16, x0: bv16, x1: bv16, x2: bv16, x3: bv16,
                 b0: bv16, b1: bv16, b2: bv16, b3: bv16, r1: bv16, r2: bv16, r3: bv16, r4: bv16, n: bv16)
    requires x0 == d & 1 && x1 == (d >> 1) & 1 && x2 == (d >> 2) & 1 && x3 == (d >> 3) & 1
    requires b0 == (reg ^ x0) & 1 && r1 == (reg >> 1) ^ (b0 << 15) ^ (b0 << 10) ^ (b0 << 3)
    requires b1 == (r1 ^ x1) & 1 && r2 == (r1 >> 1) ^ (b1 << 15) ^ (b1 << 10) ^ (b1 << 3)
    requires b2 == (r2 ^ x2) & 1 && r3 == (r2 >> 1) ^ (b2 << 15) ^ (b2 << 10) ^ (b2 << 3)
    requires b3 == (r3 ^ x3) & 1 && r4 == (r3 >> 1) ^ (b3 << 15) ^ (b3 << 10) ^ (b3 << 3)
    requires n == (reg ^ d) & 0xf
    ensures r4 == (reg >> 4) ^ n ^ (n << 7) ^ (n << 12)
  {}

  /** Four turns of the shift register are one table lookup. */
  lemma FourSteps(reg: bv16, d: bv16, x0: bv16, x1: bv16, x2: bv16, x3: bv16, r1: bv16, r2: bv16, r3: bv16, r4: bv16)
    requires x0 == d & 1 && x1 == (d >> 1) & 1 && x2 == (d >> 2) & 1 && x3 == (d >> 3) & 1
    requires r1 == BitStep(reg, x0) && r2 == BitStep(r1, x1) && r3 == BitStep(r2, x2) && r4 == BitStep(r3, x3)
    ensures r4 == Nibble(reg, d)
  {
    var n, b0, b1, b2, b3 := (reg ^ d) & 0xf, (reg ^ x0) & 1, (r1 ^ x1) & 1, (r2 ^ x2) & 1, (r3 ^ x3) & 1;
    BitForm(reg, x0, b0, r1);
    BitForm(r1, x1, b1, r2);
    BitForm(r2, x2, b2, r3);
    BitForm(r3, x3, b3, r4);
    FourBits(reg, d, x0, x1, x2, x3, b0, b1, b2, b3, r1, r2, r3, r4, n);
    NibbleForm(reg, d, n);
  }

  lemma {:induction false} FeedOne<R(!new), D>(f: (R, D) -> R, reg: R, m: seq<D>, x: D)
    ensures Feed(f, reg, m + [x]) == f(Feed(f, reg, m), x)
  {
    assert (m + [x])[..|m|] == m;
  }

  lemma {:induction false} FeedFour<R(!new)>(f: (R, bv16) -> R, reg: R, bits: seq<bv16>, x0: bv16, x1: bv16, x2: bv16, x3: bv16)
    ensures Feed(f, reg, bits + [x0, x1, x2, x3]) == f(f(f(f(Feed(f, reg, bits), x0), x1), x2), x3)
  {
    var b1 := bits + [x0];
    var b2 := b1 + [x1];
    var b3 := b2 + [x2];
    assert b3 + [x3] == bits + [x0, x1, x2, x3];
    FeedOne(f, reg, b3, x3);
    FeedOne(f, reg, b2, x2);
    FeedOne(f, reg, b1, x1);
    FeedOne(f, reg, bits, x0);
  }

  lemma {:induction false} FeedNibble(reg: bv16, bits: seq<bv16>, d: bv16, was: bv16)
    requires was == Feed(BitStep, reg, bits)
    ensures Feed(BitStep, reg, bits + FourOf(d)) == Nibble(was, d)
  {
    var f := BitStep;
    var x0, x1, x2, x3 := d & 1, (d >> 1) & 1, (d >> 2) & 1, (d >> 3) & 1;
    var r1 := f(was, x0);
    var r2 := f(r1, x1);
    var r3 := f(r2, x2);
    FourSteps(was, d, x0, x1, x2, x3, r1, r2, r3, f(r3, x3));
    FeedFour(f, reg, bits, x0, x1, x2, x3);
  }

  lemma {:induction false} FeedOctet(reg: bv16, bits: seq<bv16>, d: bv16, was: bv16)
    requires was == Feed(BitStep, reg, bits)
    ensures Feed(BitStep, reg, bits + FourOf(d) + FourOf(d >> 4)) == Update(was, d)
  {
    var half := Nibble(was, d);
    FeedNibble(reg, bits, d, was);
    FeedNibble(reg, bits + FourOf(d), d >> 4, half);
  }

  lemma SumLast(reg: bv16, m: seq<Byte>, front: seq<Byte>, d: bv16, was: bv16)
    requires m != [] && front == m[..|m| - 1] && d == Octet(m[|m| - 1]) && was == Sum(reg, front)
    ensures Sum(reg, m) == Update(was, d)
  {}

  lemma BitsLast(m: seq<Byte>, front: seq<Byte>, d: bv16)
    requires m != [] && front == m[..|m| - 1] && d == Octet(m[|m| - 1])
    ensures Bits(m) == Bits(front) + FourOf(d) + FourOf(d >> 4)
  {}

  /** For every message the table gives the register the shift register gives. */
  lemma {:induction false} SumIsBitSerial(reg: bv16, m: seq<Byte>)
    ensures Sum(reg, m) == Serial(reg, m)
  {
    if m != [] {
      var front, d := m[..|m| - 1], Octet(m[|m| - 1]);
      SumIsBitSerial(reg, front);
      var was := Sum(reg, front);
      SumLast(reg, m, front, d, was);
      BitsLast(m, front, d);
      FeedOctet(reg, Bits(front), d, was);
    }
  }

  // ----- Errors confined to two adjacent octets are always detected -----

  /** The fed nibble can be read back from the top of the register. */
  lemma TopNibble(p: bv16, n: bv16, s: bv16)
    requires n <= 0xf && s == (p >> 4) ^ n ^ (n << 7) ^ (n << 12)
    ensures s >> 12 == n && (s >> 4) >> 8 == n && (s >> 8) >> 4 == n
  {}

  lemma XorBack(a: bv16, b: bv16, k: bv16)
    requires a ^ k == b ^ k
    ensures a == b
  {}

  lemma XorBack4(a: bv16, b: bv16, k: bv16, s: bv16, t: bv16)
    requires s == a ^ k && t == b ^ k && s >> 4 == t >> 4
    ensures a >> 4 == b >> 4
  {}

  lemma XorBack8(a: bv16, b: bv16, k: bv16, s: bv16, t: bv16)
    requires s == a ^ k && t == b ^ k && s >> 8 == t >> 8
    ensures a >> 8 == b >> 8
  {}

  lemma ShiftTwice(p: bv16, a: bv16)
    requires a == p >> 4
    ensures a >> 4 == p >> 8 && a >> 8 == p >> 12
  {}

  lemma SameReg(p: bv16, q: bv16, d: bv16, n: bv16)
    requires p >> 4 == q >> 4 && n == (p ^ d) & 0xf && n == (q ^ d) & 0xf
    ensures p == q
  {}

  lemma SameData(p: bv16, d: bv16, e: bv16, n: bv16)
    requires n == (p ^ d) & 0xf && n == (p ^ e) & 0xf
    ensures d & 0xf == e & 0xf
  {}

  lemma SameOctet(d: bv16, e: bv16)
    requires d <= 0xff && e <= 0xff && d & 0xf == e & 0xf && (d >> 4) & 0xf == (e >> 4) & 0xf
    ensures d == e
  {}

  lemma TopOfShifted(s: bv16, t: bv16)
    ensures s >> 4 == t >> 4 ==> s >> 12 == t >> 12
    ensures s >> 8 == t >> 8 ==> s >> 12 == t >> 12
  {}

  /** Two nibble steps that end alike at the top were fed alike. */
  lemma FedAlike(p: bv16, q: bv16, d: bv16, e: bv16, n: bv16, m: bv16, s: bv16, t: bv16)
    requires n == (p ^ d) & 0xf && m == (q ^ e) & 0xf && s == Nibble(p, d) && t == Nibble(q, e) && s >> 12 == t >> 12
    ensures n == m
  {
    NibbleForm(p, d, n);
    NibbleForm(q, e, m);
    TopNibble(p, n, s);
    TopNibble(q, m, t);
  }

  lemma NibbleIs(p: bv16, d: bv16, n: bv16, a: bv16, k: bv16, s: bv16)
    requires n == (p ^ d) & 0xf && s == Nibble(p, d) && a == p >> 4 && k == Table(n)
    ensures s == a ^ k
  {}

  lemma Form4(p: bv16, q: bv16, a: bv16, b: bv16, k: bv16, s: bv16, t: bv16)
    requires a == p >> 4 && b == q >> 4 && s == a ^ k && t == b ^ k && s >> 4 == t >> 4
    ensures p >> 8 == q >> 8
  {
    XorBack4(a, b, k, s, t);
    ShiftTwice(p, a);
    ShiftTwice(q, b);
  }

  lemma Rest4(p: bv16, q: bv16, d: bv16, e: bv16, n: bv16, s: bv16, t: bv16)
    requires n == (p ^ d) & 0xf && n == (q ^ e) & 0xf && s == Nibble(p, d) && t == Nibble(q, e) && s >> 4 == t >> 4
    ensures p >> 8 == q >> 8
  {
    var a, b, k := p >> 4, q >> 4, Table(n);
    NibbleIs(p, d, n, a, k, s);
    NibbleIs(q, e, n, b, k, t);
    Form4(p, q, a, b, k, s, t);
  }

  lemma Form8(p: bv16, q: bv16, a: bv16, b: bv16, k: bv16, s: bv16, t: bv16)
    requires a == p >> 4 && b == q >> 4 && s == a ^ k && t == b ^ k && s >> 8 == t >> 8
    ensures p >> 12 == q >> 12
  {
    XorBack8(a, b, k, s, t);
    ShiftTwice(p, a);
    ShiftTwice(q, b);
  }

  lemma Rest8(p: bv16, q: bv16, d: bv16, e: bv16, n: bv16, s: bv16, t: bv16)
    requires n == (p ^ d) & 0xf && n == (q ^ e) & 0xf && s == Nibble(p, d) && t == Nibble(q, e) && s >> 8 == t >> 8
    ensures p >> 12 == q >> 12
  {
    var a, b, k := p >> 4, q >> 4, Table(n);
    NibbleIs(p, d, n, a, k, s);
    NibbleIs(q, e, n, b, k, t);
    Form8(p, q, a, b, k, s, t);
  }

  /** Two nibble steps that end alike were fed alike, and agreed on all but the low nibble. */
  lemma NibbleBack(p: bv16, q: bv16, d: bv16, e: bv16, n: bv16, m: bv16, s: bv16, t: bv16)
    requires n == (p ^ d) & 0xf && m == (q ^ e) & 0xf && s == Nibble(p, d) && t == Nibble(q, e) && s == t
    ensures n == m && p >> 4 == q >> 4
  {
    FedAlike(p, q, d, e, n, m, s, t);
    var a, b, k := p >> 4, q >> 4, Table(n);
    NibbleIs(p, d, n, a, k, s);
    NibbleIs(q, e, n, b, k, t);
    XorBack(a, b, k);
  }

  lemma NibbleBack4(p: bv16, q: bv16, d: bv16, e: bv16, n: bv16, m: bv16, s: bv16, t: bv16)
    requires n == (p ^ d) & 0xf && m == (q ^ e) & 0xf && s == Nibble(p, d) && t == Nibble(q, e) && s >> 4 == t >> 4
    ensures n == m && p >> 8 == q >> 8
  {
    TopOfShifted(s, t);
    FedAlike(p, q, d, e, n, m, s, t);
    Rest4(p, q, d, e, n, s, t);
  }

  lemma NibbleBack8(p: bv16, q: bv16, d: bv16, e: bv16, n: bv16, m: bv16, s: bv16, t: bv16)
    requires n == (p ^ d) & 0xf && m == (q ^ e) & 0xf && s == Nibble(p, d) && t == Nibble(q, e) && s >> 8 == t >> 8
    ensures n == m && p >> 12 == q >> 12
  {
    TopOfShifted(s, t);
    FedAlike(p, q, d, e, n, m, s, t);
    Rest8(p, q, d, e, n, s, t);
  }

  /** Each table step is a bijection on the register. */
  lemma UpdateInjective(p: bv16, q: bv16, d: bv16, h: bv16, p1: bv16, q1: bv16, s: bv16)
    requires h == d >> 4 && p1 == Nibble(p, d) && q1 == Nibble(q, d) && s == Nibble(p1, h) && s == Nibble(q1, h)
    ensures p == q
  {
    var n, m := (p1 ^ h) & 0xf, (q1 ^ h) & 0xf;
    NibbleBack(p1, q1, h, h, n, m, s, s);
    SameReg(p1, q1, h, n);
    n, m := (p ^ d) & 0xf, (q ^ d) & 0xf;
    NibbleBack(p, q, d, d, n, m, p1, q1);
    SameReg(p, q, d, n);
  }

  /** Equal registers at the end mean equal table entries all the way. */
  lemma PairIndices(r: bv16, a: bv16, b: bv16, c: bv16, d: bv16, ah: bv16, bh: bv16, ch: bv16, dh: bv16,
                    s1: bv16, s2: bv16, s3: bv16, t1: bv16, t2: bv16, t3: bv16, u: bv16)
    returns (n0: bv16, n1: bv16, n2: bv16, n3: bv16)
    requires s1 == Nibble(r, a) && s2 == Nibble(s1, ah) && s3 == Nibble(s2, b) && u == Nibble(s3, bh)
    requires t1 == Nibble(r, c) && t2 == Nibble(t1, ch) && t3 == Nibble(t2, d) && u == Nibble(t3, dh)
    ensures n3 == (s3 ^ bh) & 0xf && n3 == (t3 ^ dh) & 0xf && n2 == (s2 ^ b) & 0xf && n2 == (t2 ^ d) & 0xf
    ensures n1 == (s1 ^ ah) & 0xf && n1 == (t1 ^ ch) & 0xf && n0 == (r ^ a) & 0xf && n0 == (r ^ c) & 0xf
  {
    n0, n1, n2, n3 := (r ^ a) & 0xf, (s1 ^ ah) & 0xf, (s2 ^ b) & 0xf, (s3 ^ bh) & 0xf;
    NibbleBack(s3, t3, bh, dh, n3, (t3 ^ dh) & 0xf, u, u);
    NibbleBack4(s2, t2, b, d, n2, (t2 ^ d) & 0xf, s3, t3);
    NibbleBack8(s1, t1, ah, ch, n1, (t1 ^ ch) & 0xf, s2, t2);
    FedAlike(r, r, a, c, n0, (r ^ c) & 0xf, s1, t1);
  }

  /** Equal table entries from one register mean equal nibbles. */
  lemma PairNibbles(r: bv16, a: bv16, b: bv16, c: bv16, d: bv16, ah: bv16, bh: bv16, ch: bv16, dh: bv16,
                    s1: bv16, s2: bv16, s3: bv16, t1: bv16, t2: bv16, t3: bv16, n0: bv16, n1: bv16, n2: bv16, n3: bv16)
    requires s1 == Nibble(r, a) && s2 == Nibble(s1, ah) && s3 == Nibble(s2, b)
    requires t1 == Nibble(r, c) && t2 == Nibble(t1, ch) && t3 == Nibble(t2, d)
    requires n3 == (s3 ^ bh) & 0xf && n3 == (t3 ^ dh) & 0xf && n2 == (s2 ^ b) & 0xf && n2 == (t2 ^ d) & 0xf
    requires n1 == (s1 ^ ah) & 0xf && n1 == (t1 ^ ch) & 0xf && n0 == (r ^ a) & 0xf && n0 == (r ^ c) & 0xf
    ensures a & 0xf == c & 0xf && ah & 0xf == ch & 0xf && b & 0xf == d & 0xf && bh & 0xf == dh & 0xf
  {
    SameNibble(r, a, c, n0, s1, t1);
    SameNibble(s1, ah, ch, n1, s2, t2);
    SameNibble(s2, b, d, n2, s3, t3);
    SameData(s3, bh, dh, n3);
  }

  /** From one register, two different pairs of octets never lead to the same register. */
  lemma PairInjective(r: bv16, a: bv16, b: bv16, c: bv16, d: bv16, ah: bv16, bh: bv16, ch: bv16, dh: bv16,
                      s1: bv16, s2: bv16, s3: bv16, t1: bv16, t2: bv16, t3: bv16, u: bv16)
    requires a <= 0xff && b <= 0xff && c <= 0xff && d <= 0xff
    requires ah == a >> 4 && bh == b >> 4 && ch == c >> 4 && dh == d >> 4
    requires s1 == Nibble(r, a) && s2 == Nibble(s1, ah) && s3 == Nibble(s2, b) && u == Nibble(s3, bh)
    requires t1 == Nibble(r, c) && t2 == Nibble(t1, ch) && t3 == Nibble(t2, d) && u == Nibble(t3, dh)
    ensures a == c && b == d
  {
    var n0, n1, n2, n3 := PairIndices(r, a, b, c, d, ah, bh, ch, dh, s1, s2, s3, t1, t2, t3, u);
    PairNibbles(r, a, b, c, d, ah, bh, ch, dh, s1, s2, s3, t1, t2, t3, n0, n1, n2, n3);
    SameOctet(a, c);
    SameOctet(b, d);
  }

  lemma SameNibble(p: bv16, d: bv16, e: bv16, n: bv16, s: bv16, t: bv16)
    requires n == (p ^ d) & 0xf && n == (p ^ e) & 0xf && s == Nibble(p, d) && t == Nibble(p, e)
    ensures s == t && d & 0xf == e & 0xf
  {
    SameData(p, d, e, n);
  }

  lemma PackBits(b0: bool, b1: bool, b2: bool, b3: bool, b4: bool, b5: bool, b6: bool, b7: bool, v: bv16)
    requires v == Pack(b0, b1, b2, b3, b4, b5, b6, b7)
    ensures v <= 0xff && Low(v) == Weigh(b0, b1, b2, b3, b4, b5, b6, b7)
  {
    assert b0 == (v & 0x01 != 0) && b1 == (v & 0x02 != 0) && b2 == (v & 0x04 != 0) && b3 == (v & 0x08 != 0);
    assert b4 == (v & 0x10 != 0) && b5 == (v & 0x20 != 0) && b6 == (v & 0x40 != 0) && b7 == (v & 0x80 != 0);
  }

  lemma Halve(n: nat)
    ensures n == 2 * (n / 2) + if n % 2 == 1 then 1 else 0
  {}

  lemma Binary(b: Byte, q1: nat, q2: nat, q3: nat, q4: nat, q5: nat, q6: nat, q7: nat,
               b0: bool, b1: bool, b2: bool, b3: bool, b4: bool, b5: bool, b6: bool, b7: bool)
    requires b == 2 * q1 + if b0 then 1 else 0
    requires q1 == 2 * q2 + if b1 then 1 else 0
    requires q2 == 2 * q3 + if b2 then 1 else 0
    requires q3 == 2 * q4 + if b3 then 1 else 0
    requires q4 == 2 * q5 + if b4 then 1 else 0
    requires q5 == 2 * q6 + if b5 then 1 else 0
    requires q6 == 2 * q7 + if b6 then 1 else 0
    requires b7 == (q7 == 1)
    ensures Weigh(b0, b1, b2, b3, b4, b5, b6, b7) == b
  {}

  /** Widening an octet loses nothing. */
  lemma OctetBack(b: Byte, v: bv16)
    requires v == Octet(b)
    ensures v <= 0xff && Low(v) == b
  {
    var q1 := b / 2;
    var q2 := q1 / 2;
    var q3 := q2 / 2;
    var q4 := q3 / 2;
    var q5 := q4 / 2;
    var q6 := q5 / 2;
    Halve(b);
    Halve(q1);
    Halve(q2);
    Halve(q3);
    Halve(q4);
    Halve(q5);
    Halve(q6);
    Binary(b, q1, q2, q3, q4, q5, q6, q6 / 2, b % 2 == 1, q1 % 2 == 1, q2 % 2 == 1, q3 % 2 == 1,
           q4 % 2 == 1, q5 % 2 == 1, q6 % 2 == 1, q6 / 2 == 1);
    PackBits(b % 2 == 1, q1 % 2 == 1, q2 % 2 == 1, q3 % 2 == 1, q4 % 2 == 1, q5 % 2 == 1, q6 % 2 == 1, q6 / 2 == 1, v);
  }

  lemma Unhalve(n: nat, q: nat, b: bool)
    requires n == 2 * q + if b then 1 else 0
    ensures n / 2 == q && (n % 2 == 1) == b
  {}

  lemma OctetBits(b: Byte, q1: nat, q2: nat, q3: nat, q4: nat, q5: nat, q6: nat, q7: nat,
                  b0: bool, b1: bool, b2: bool, b3: bool, b4: bool, b5: bool, b6: bool, b7: bool)
    requires b == 2 * q1 + if b0 then 1 else 0
    requires q1 == 2 * q2 + if b1 then 1 else 0
    requires q2 == 2 * q3 + if b2 then 1 else 0
    requires q3 == 2 * q4 + if b3 then 1 else 0
    requires q4 == 2 * q5 + if b4 then 1 else 0
    requires q5 == 2 * q6 + if b5 then 1 else 0
    requires q6 == 2 * q7 + if b6 then 1 else 0
    requires b7 == (q7 == 1)
    ensures Octet(b) == Pack(b0, b1, b2, b3, b4, b5, b6, b7)
  {
    Unhalve(b, q1, b0);
    Unhalve(q1, q2, b1);
    Unhalve(q2, q3, b2);
    Unhalve(q3, q4, b3);
    Unhalve(q4, q5, b4);
    Unhalve(q5, q6, b5);
    Unhalve(q6, q7, b6);
  }

  lemma OctetOfWeigh(b0: bool, b1: bool, b2: bool, b3: bool, b4: bool, b5: bool, b6: bool, b7: bool)
    ensures Octet(Weigh(b0, b1, b2, b3, b4, b5, b6, b7)) == Pack(b0, b1, b2, b3, b4, b5, b6, b7)
  {
    var q7 := if b7 then 1 else 0;
    var q6 := 2 * q7 + if b6 then 1 else 0;
    var q5 := 2 * q6 + if b5 then 1 else 0;
    var q4 := 2 * q5 + if b4 then 1 else 0;
    var q3 := 2 * q4 + if b3 then 1 else 0;
    var q2 := 2 * q3 + if b2 then 1 else 0;
    var q1 := 2 * q2 + if b1 then 1 else 0;
    var b := 2 * q1 + if b0 then 1 else 0;
    Binary(b, q1, q2, q3, q4, q5, q6, q7, b0, b1, b2, b3, b4, b5, b6, b7);
    OctetBits(b, q1, q2, q3, q4, q5, q6, q7, b0, b1, b2, b3, b4, b5, b6, b7);
  }

  lemma OctetOfLow(w: bv16)
    ensures Octet(Low(w)) == w & 0xff
  {
    OctetOfWeigh(w & 0x01 != 0, w & 0x02 != 0, w & 0x04 != 0, w & 0x08 != 0,
                 w & 0x10 != 0, w & 0x20 != 0, w & 0x40 != 0, w & 0x80 != 0);
    PackOfBits(w);
  }

  lemma PackOfBits(w: bv16)
    ensures Pack(w & 0x01 != 0, w & 0x02 != 0, w & 0x04 != 0, w & 0x08 != 0,
                 w & 0x10 != 0, w & 0x20 != 0, w & 0x40 != 0, w & 0x80 != 0) == w & 0xff
  {}

  lemma Halves(w: bv16, h: bv16, l: bv16)
    requires h == (w >> 8) & 0xff && l == w & 0xff
    ensures (h << 8) | l == w
  {}

  /** The receiver reads back the reversed register from the check octets. */
  lemma TrailerJoin(reg: bv16)
    ensures var t := Trailer(reg); Join(t[0], t[1]) == Reverse(reg)
  {
    var w := Reverse(reg);
    OctetOfLow(w >> 8);
    OctetOfLow(w);
    Halves(w, (w >> 8) & 0xff, w & 0xff);
  }

  lemma HalvesDistinct(h: bv16, l: bv16, k: bv16, m: bv16)
    requires h <= 0xff && l <= 0xff && k <= 0xff && m <= 0xff
    requires (h << 8) | l == (k << 8) | m
    ensures h == k && l == m
  {}

  lemma JoinDistinct(h: Byte, l: Byte, k: Byte, m: Byte)
    requires h != k || l != m
    ensures Join(h, l) != Join(k, m)
  {
    OctetBack(h, Octet(h));
    OctetBack(l, Octet(l));
    OctetBack(k, Octet(k));
    OctetBack(m, Octet(m));
    if Join(h, l) == Join(k, m) {
      HalvesDistinct(Octet(h), Octet(l), Octet(k), Octet(m));
    }
  }

  lemma ReverseTwice(x: bv16, y: bv16)
    requires y == Reverse(x)
    ensures Reverse(y) == x
  {}

  lemma UpdateDistinct(p: bv16, q: bv16, d: bv16)
    requires p != q
    ensures Update(p, d) != Update(q, d)
  {
    if Update(p, d) == Update(q, d) {
      UpdateInjective(p, q, d, d >> 4, Nibble(p, d), Nibble(q, d), Update(p, d));
    }
  }

  lemma PairDistinct(r: bv16, a: Byte, b: Byte, c: Byte, d: Byte)
    requires a != c || b != d
    ensures Update(Update(r, Octet(a)), Octet(b)) != Update(Update(r, Octet(c)), Octet(d))
  {
    var av, bv, cv, dv := Octet(a), Octet(b), Octet(c), Octet(d);
    OctetBack(a, av);
    OctetBack(b, bv);
    OctetBack(c, cv);
    OctetBack(d, dv);
    var s1, t1 := Nibble(r, av), Nibble(r, cv);
    var s2, t2 := Nibble(s1, av >> 4), Nibble(t1, cv >> 4);
    var u := Update(Update(r, av), bv);
    if u == Update(Update(r, cv), dv) {
      PairInjective(r, av, bv, cv, dv, av >> 4, bv >> 4, cv >> 4, dv >> 4, s1, s2, Nibble(s2, bv), t1, t2, Nibble(t2, dv), u);
    }
  }

  lemma {:induction false} FeedDistinct<R(!new), D(!new)>(f: (R, D) -> R, reg: R, m: seq<D>, w: seq<D>, i: nat)
    requires forall p, q, d :: p != q ==> f(p, d) != f(q, d)
    requires forall p, a, b, c, d :: a != c || b != d ==> f(f(p, a), b) != f(f(p, c), d)
    requires |m| == |w| && i < |m| && m != w
    requires forall k :: 0 <= k < |m| && k != i && k != i + 1 ==> m[k] == w[k]
    ensures Feed(f, reg, m) != Feed(f, reg, w)
  {
    var n := |m| - 1;
    if i + 1 < n {
      FeedDistinct(f, reg, m[..n], w[..n], i);
    } else if i == n {
      var p := Feed(f, reg, m[..n]);
      assert m[..n] == w[..n];
      assert f(f(p, m[n]), m[n]) != f(f(p, w[n]), m[n]);
    } else {
      assert m[..n][..i] == m[..i] == w[..i] == w[..n][..i];
    }
  }

  /**
   * Two equal-length messages that differ, but only at octet `i` and the one behind it, if there is
   * one, get different registers.
   */
  lemma {:induction false} BurstDetected(reg: bv16, m: seq<Byte>, w: seq<Byte>, i: nat)
    requires |m| == |w| && i < |m| && m != w
    requires forall k :: 0 <= k < |m| && k != i && k != i + 1 ==> m[k] == w[k]
    ensures Sum(reg, m) != Sum(reg, w)
  {
    var f := Step;
    forall p, q, d | p != q ensures f(p, d) != f(q, d) {
      UpdateDistinct(p, q, Octet(d));
    }
    forall p, a, b, c, d | a != c || b != d ensures f(f(p, a), b) != f(f(p, c), d) {
      PairDistinct(p, a, b, c, d);
    }
    FeedDistinct(f, reg, m, w, i);
  }

  // ----- Damage across the border to the check octets -----

  /** From one register, two octets that leave the upper half of the register alike are alike. */
  lemma UpperHalf(p: bv16, d: bv16, e: bv16, dh: bv16, eh: bv16, p1: bv16, q1: bv16, s: bv16, t: bv16)
    requires d <= 0xff && e <= 0xff && dh == d >> 4 && eh == e >> 4
    requires p1 == Nibble(p, d) && q1 == Nibble(p, e) && s == Nibble(p1, dh) && t == Nibble(q1, eh) && s >> 8 == t >> 8
    ensures d == e
  {
    var n, m := (p1 ^ dh) & 0xf, (q1 ^ eh) & 0xf;
    NibbleBack8(p1, q1, dh, eh, n, m, s, t);
    var k, l := (p ^ d) & 0xf, (p ^ e) & 0xf;
    FedAlike(p, p, d, e, k, l, p1, q1);
    SameNibble(p, d, e, k, p1, q1);
    SameData(p1, dh, eh, n);
    SameOctet(d, e);
  }

  lemma UpperDistinct(p: bv16, a: Byte, b: Byte)
    requires a != b
    ensures Step(p, a) >> 8 != Step(p, b) >> 8
  {
    var d, e := Octet(a), Octet(b);
    OctetBack(a, d);
    OctetBack(b, e);
    var s, t := Step(p, a), Step(p, b);
    if s >> 8 == t >> 8 {
      UpperHalf(p, d, e, d >> 4, e >> 4, Nibble(p, d), Nibble(p, e), s, t);
    }
  }

  /** The second check octet is the upper half of the register. */
  lemma SecondCheck(r: bv16, q: bv16, x: bv16, y: bv16)
    requires x == Reverse(r) && y == Reverse(q) && x & 0xff == y & 0xff
    ensures r >> 8 == q >> 8
  {}

  lemma JoinLow(high: bv16, low: bv16, j: bv16)
    requires low <= 0xff && j == (high << 8) | low
    ensures j & 0xff == low
  {}

  /**
   * Two messages that differ in their last octet only: the check octets of the one, the first of them
   * changed at will, are never those of the other.
   */
  lemma BorderDetected(reg: bv16, front: seq<Byte>, a: Byte, b: Byte, high: Byte)
    requires a != b
    ensures Reverse(Sum(reg, front + [b])) != Join(high, Trailer(Sum(reg, front + [a]))[1])
  {
    var p := Sum(reg, front);
    FeedOne(Step, reg, front, a);
    FeedOne(Step, reg, front, b);
    UpperDistinct(p, a, b);
    var r, q := Step(p, a), Step(p, b);
    var x, y, low := Reverse(r), Reverse(q), Low(Reverse(r));
    OctetOfLow(x);
    OctetBack(low, Octet(low));
    if y == Join(high, low) {
      JoinLow(Octet(high), Octet(low), y);
      SecondCheck(r, q, x, y);
    }
  }
}
