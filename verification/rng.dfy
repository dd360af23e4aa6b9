/** Seed hashing, the mulberry32 generator and bounded draws. */
module Rng {
  const TWO_32: int := 0x1_0000_0000

  newtype CodeUnit = c: int | 0 <= c < 0x1_0000

  // A string as its UTF-16 code units.
  type Text = seq<CodeUnit>

  const BAR: CodeUnit := 0x7c

  // parts.join('|')
  function Join(parts: seq<Text>): Text {
    if parts == [] then []
    else if |parts| == 1 then parts[0]
    else Join(parts[..|parts| - 1]) + [BAR] + parts[|parts| - 1]
  }

  // ---------- FNV-1a over 32-bit words, as numbers below 2^32 ----------

  const PRIME: int := 0x01000193
  const PRIME_INVERSE: int := 0x359c449b

  function Xor(x: nat, y: nat): nat {
    if x == 0 && y == 0 then 0
    else 2 * Xor(x / 2, y / 2) + if x % 2 == y % 2 then 0 else 1
  }

  // Math.imul with the FNV prime, read as unsigned.
  function Times(h: nat): nat {
    h * PRIME % TWO_32
  }

  function Fold(h: nat, s: Text): nat {
    if s == [] then h else Times(Xor(Fold(h, s[..|s| - 1]), s[|s| - 1] as nat))
  }

  const OFFSET: nat := 0x811c9dc5

  function Hash(s: Text): nat {
    Fold(OFFSET, s)
  }

  method HashSeed(parts: seq<Text>) returns (h: nat)
    ensures h == Hash(Join(parts)) && h < TWO_32
  {
    h := OFFSET;
    var s := Join(parts);
    for i := 0 to |s|
      invariant h == Fold(OFFSET, s[..i]) && h < TWO_32
    {
      h := Xor(h, s[i] as nat);
      h := Times(h);
      assert s[..i + 1][..i] == s[..i];
    }
    assert s[..|s|] == s;
  }

  lemma {:induction false} XorInjective(x: nat, y: nat, c: nat)
    requires Xor(x, c) == Xor(y, c)
    ensures x == y
    decreases x + y + c
  {
    if x + y + c > 0 {
      XorInjective(x / 2, y / 2, c / 2);
    }
  }

  lemma {:induction false} XorCommutes(x: nat, y: nat)
    ensures Xor(x, y) == Xor(y, x)
    decreases x + y
  {
    if x + y > 0 {
      XorCommutes(x / 2, y / 2);
    }
  }

  // x ^ y has no more bits than x and y.
  lemma {:induction false} XorBound(x: nat, y: nat, n: nat)
    requires x < Pow2(n) && y < Pow2(n)
    ensures Xor(x, y) < Pow2(n)
  {
    if n > 0 {
      XorBound(x / 2, y / 2, n - 1);
    }
  }

  function Pow2(n: nat): nat {
    if n == 0 then 1 else 2 * Pow2(n - 1)
  }

  lemma Pow2Is32()
    ensures Pow2(32) == TWO_32
  {
    assert Pow2(8) == 256;
    assert Pow2(16) == 65536;
    assert Pow2(24) == 16777216;
  }

  // Multiplication by the odd prime loses nothing modulo 2^32.
  lemma TimesInjective(g: nat, h: nat)
    requires g < TWO_32 && h < TWO_32 && Times(g) == Times(h)
    ensures g == h
  {
    var q := g * PRIME / TWO_32 - h * PRIME / TWO_32;
    assert (g - h) * PRIME == q * TWO_32;
    assert PRIME * PRIME_INVERSE == 1 + 3513497 * TWO_32;
    assert (g - h) * (PRIME * PRIME_INVERSE) == q * PRIME_INVERSE * TWO_32;
    assert g - h == (q * PRIME_INVERSE - (g - h) * 3513497) * TWO_32;
  }

  lemma {:induction false} FoldBound(h: nat, s: Text)
    requires h < TWO_32
    ensures Fold(h, s) < TWO_32
  {
  }

  lemma {:induction false} FoldInjective(g: nat, h: nat, s: Text)
    requires g < TWO_32 && h < TWO_32 && Fold(g, s) == Fold(h, s)
    ensures g == h
  {
    if s != [] {
      var front, c := s[..|s| - 1], s[|s| - 1] as nat;
      var x, y := Fold(g, front), Fold(h, front);
      FoldBound(g, front);
      FoldBound(h, front);
      Pow2Is32();
      XorBound(x, c, 32);
      XorBound(y, c, 32);
      TimesInjective(Xor(x, c), Xor(y, c));
      XorInjective(x, y, c);
      FoldInjective(g, h, front);
    }
  }

  lemma {:induction false} FoldAppend(h: nat, s: Text, t: Text)
    ensures Fold(h, s + t) == Fold(Fold(h, s), t)
  {
    if t == [] {
      assert s + t == s;
    } else {
      FoldAppend(h, s, t[..|t| - 1]);
      assert (s + t)[..|s + t| - 1] == s + t[..|t| - 1];
    }
  }

  /** Strings of equal length that differ in exactly one character have different hashes. */
  lemma OneCharacterMatters(before: Text, c: CodeUnit, d: CodeUnit, after: Text)
    requires c != d
    ensures Hash(before + [c] + after) != Hash(before + [d] + after)
  {
    var h := Hash(before);
    FoldAppend(OFFSET, before + [c], after);
    FoldAppend(OFFSET, before + [d], after);
    assert (before + [c])[..|before|] == before && (before + [d])[..|before|] == before;
    if Hash(before + [c] + after) == Hash(before + [d] + after) {
      FoldInjective(Hash(before + [c]), Hash(before + [d]), after);
      FoldBound(OFFSET, before);
      Pow2Is32();
      XorBound(h, c as nat, 32);
      XorBound(h, d as nat, 32);
      TimesInjective(Xor(h, c as nat), Xor(h, d as nat));
      XorCommutes(h, c as nat);
      XorCommutes(h, d as nat);
      XorInjective(c as nat, d as nat, h);
    }
  }

  // ---------- what these functions are ----------

  // 1 where the lowest bits differ.
  function Differ(x: nat, y: nat): nat {
    if x % 2 == y % 2 then 0 else 1
  }

  lemma XorBit(x: nat, y: nat)
    ensures Xor(x, y) == 2 * Xor(x / 2, y / 2) + Differ(x, y)
  {
  }

  lemma {:induction false} XorZero(x: nat)
    ensures Xor(x, 0) == x
  {
    if x > 0 {
      XorZero(x / 2);
    }
  }

  // Four bits of a xor.
  lemma XorDigit(x: nat, x1: nat, x2: nat, x3: nat, x4: nat, y: nat, y1: nat, y2: nat, y3: nat, y4: nat)
    requires x1 == x / 2 && x2 == x1 / 2 && x3 == x2 / 2 && x4 == x3 / 2
    requires y1 == y / 2 && y2 == y1 / 2 && y3 == y2 / 2 && y4 == y3 / 2
    ensures Xor(x, y) == 16 * Xor(x4, y4) + 8 * Differ(x3, y3) + 4 * Differ(x2, y2) + 2 * Differ(x1, y1) + Differ(x, y)
  {
    XorBit(x, y);
    XorBit(x1, y1);
    XorBit(x2, y2);
    XorBit(x3, y3);
  }

  function Low(x: nat, y: nat): nat {
    8 * Differ(x / 8, y / 8) + 4 * Differ(x / 4, y / 4) + 2 * Differ(x / 2, y / 2) + Differ(x, y)
  }

  lemma Halves(x: nat)
    ensures x / 2 / 2 == x / 4 && x / 4 / 2 == x / 8 && x / 8 / 2 == x / 16
  {
  }

  lemma XorLow(x: nat, y: nat)
    ensures Xor(x, y) == 16 * Xor(x / 16, y / 16) + Low(x, y)
  {
    Halves(x);
    Halves(y);
    XorDigit(x, x / 2, x / 4, x / 8, x / 16, y, y / 2, y / 4, y / 8, y / 16);
  }

  // One hexadecimal digit of a xor, from the digits of its operands.
  lemma DigitIs(x: nat, y: nat, q: nat, p: nat, a: nat, b: nat, r: nat)
    requires x == 16 * q + a && y == 16 * p + b && a < 16 && b < 16 && Low(a, b) == r
    ensures Xor(x, y) == 16 * Xor(q, p) + r
  {
    XorLow(x, y);
    LowOf(x, q, a);
    LowOf(y, p, b);
  }

  lemma LowOf(x: nat, q: nat, a: nat)
    requires x == 16 * q + a && a < 16
    ensures x / 16 == q && x % 2 == a % 2 && x / 2 % 2 == a / 2 % 2 && x / 4 % 2 == a / 4 % 2 && x / 8 % 2 == a / 8 % 2
  {
    Shifted(x, q, a);
    SameParity(x, 8 * q, a);
    SameParity(x / 2, 4 * q, a / 2);
    SameParity(x / 4, 2 * q, a / 4);
    SameParity(x / 8, q, a / 8);
  }

  lemma Shifted(x: nat, q: nat, a: nat)
    requires x == 16 * q + a && a < 16
    ensures x / 2 == 8 * q + a / 2 && x / 4 == 4 * q + a / 4 && x / 8 == 2 * q + a / 8
  {
  }

  lemma SameParity(x: nat, e: nat, b: nat)
    requires x == 2 * e + b
    ensures x % 2 == b % 2
  {
  }

  lemma XorLetter(h: nat, c: nat, h1: nat, h2: nat, c1: nat, z: nat)
    requires h == 0x811c9dc5 && h1 == 0x811c9dc && h2 == 0x811c9d && c == 0x61 && c1 == 6 && z == 0
    ensures Xor(h, c) == 0x811c9da4
  {
    DigitIs(h, c, h1, c1, 5, 1, 4);
    DigitIs(h1, c1, h2, z, 12, 6, 10);
    XorZero(h2);
  }

  lemma FoldOne(h: nat, s: Text)
    requires |s| == 1
    ensures Fold(h, s) == Times(Xor(h, s[0] as nat))
  {
    assert s[..0] == [];
  }

  lemma TimesKnown(x: nat)
    requires x == 0x811c9da4
    ensures Times(x) == 0xe40c292c
  {
  }

  /** A known answer of 32-bit FNV-1a: the hash of the letter a. */
  lemma HashOfA(h: nat, s: Text)
    requires h == OFFSET && s == [0x61]
    ensures Hash(s) == 0xe40c292c
  {
    FoldOne(h, s);
    XorLetter(h, s[0] as nat, 0x811c9dc, 0x811c9d, 6, 0);
    TimesKnown(Xor(h, s[0] as nat));
  }

  predicate Plain(s: Text) {
    BAR !in s
  }

  // The last part of a joined text is what follows its last bar.
  lemma LastPart(a: Text, b: Text, x: Text, y: Text)
    requires Plain(x) && Plain(y) && a + [BAR] + x == b + [BAR] + y
    ensures a == b && x == y
  {
    var s, t := a + [BAR] + x, b + [BAR] + y;
    assert s[|a|] == BAR && t[|b|] == BAR;
    assert |a| == |b|;
    assert s[..|a|] == a && t[..|b|] == b && s[|a| + 1..] == x && t[|b| + 1..] == y;
  }

  /** Joining is unambiguous for parts without a bar, such as decimal numbers: different lists of equally
      many parts give different texts. */
  lemma {:induction false} JoinInjective(ps: seq<Text>, qs: seq<Text>)
    requires |ps| == |qs| && Join(ps) == Join(qs)
    requires forall i :: 0 <= i < |ps| ==> Plain(ps[i]) && Plain(qs[i])
    ensures ps == qs
  {
    if |ps| > 1 {
      var n := |ps| - 1;
      LastPart(Join(ps[..n]), Join(qs[..n]), ps[n], qs[n]);
      JoinInjective(ps[..n], qs[..n]);
      assert ps == ps[..n] + [ps[n]] && qs == qs[..n] + [qs[n]];
    }
  }

  // ---------- mulberry32 ----------

  // The state as a number modulo 2^32: each draw adds this odd constant.
  const INCREMENT: int := 0x6d2b79f5
  const INVERSE: int := 0xdc58aa5d

  function Or(x: nat, y: nat): nat {
    if x == 0 && y == 0 then 0
    else 2 * Or(x / 2, y / 2) + if x % 2 == 0 && y % 2 == 0 then 0 else 1
  }

  // Math.imul, read as unsigned, one bit of y at a time.
  function Imul(x: nat, y: nat): (z: nat)
    ensures z < TWO_32
  {
    if y == 0 then 0 else (2 * Imul(x, y / 2) + if y % 2 == 0 then 0 else x) % TWO_32
  }

  lemma {:induction false} ImulIsProduct(x: nat, y: nat)
    ensures Imul(x, y) == x * y % TWO_32
  {
    if y == 0 {
    } else {
      ImulIsProduct(x, y / 2);
      Halve(x, y / 2, y % 2);
      assert y == 2 * (y / 2) + y % 2;
      DoubleModulo(x * (y / 2), if y % 2 == 0 then 0 else x);
    }
  }

  lemma Halve(x: int, h: int, b: int)
    requires b == 0 || b == 1
    ensures x * (2 * h + b) == 2 * (x * h) + if b == 0 then 0 else x
  {
  }

  lemma DoubleModulo(h: int, o: int)
    ensures (2 * (h % TWO_32) + o) % TWO_32 == (2 * h + o) % TWO_32
  {
    AddModulo(h, h % TWO_32 + o);
    AddModulo(h, h + o);
  }

  function XorWord(v: nat, t: nat): (z: nat)
    requires v < TWO_32 && t < TWO_32
    ensures z < TWO_32
  {
    Pow2Is32();
    XorBound(v, t, 32);
    Xor(v, t)
  }

  // The unsigned shifts by 15, 7 and 14 are divisions.
  function Scramble(a: nat): (k: nat)
    requires a < TWO_32
    ensures k < TWO_32
  {
    var t := Imul(XorWord(a, a / 0x8000), Or(1, a));
    var v := (t + Imul(XorWord(t, t / 0x80), Or(61, t))) % TWO_32;
    var u := XorWord(v, t);
    XorWord(u, u / 0x4000)
  }

  function Advance(a: nat): (b: nat)
    ensures b < TWO_32
  {
    (a + INCREMENT) % TWO_32
  }

  // The generator's state after n draws.
  function StateAfter(seed: nat, n: nat): (s: nat)
    requires seed < TWO_32
    ensures s < TWO_32
  {
    if n == 0 then seed else Advance(StateAfter(seed, n - 1))
  }

  // The i-th draw (from 1) of the generator with this seed, as a numerator over 2^32.
  function Draw(seed: nat, i: nat): (k: nat)
    requires seed < TWO_32
    ensures k < TWO_32
  {
    Scramble(StateAfter(seed, i))
  }

  class Mulberry32 {
    var a: nat
    ghost const seed: nat
    ghost var drawn: nat

    ghost predicate Valid()
      reads this
    {
      seed < TWO_32 && a == StateAfter(seed, drawn)
    }

    constructor (seed: nat)
      requires seed < TWO_32
      ensures Valid() && this.seed == seed && drawn == 0
    {
      a, this.seed, drawn := seed, seed, 0;
    }

    // The next draw of this seed's sequence, as a numerator over 2^32.
    method Next() returns (k: nat)
      requires Valid()
      modifies this
      ensures Valid() && drawn == old(drawn) + 1
      ensures k == Draw(seed, drawn)
    {
      a := Advance(a);
      drawn := drawn + 1;
      k := Output();
    }

    // The present state, scrambled.
    method Output() returns (k: nat)
      requires Valid()
      ensures k == Draw(seed, drawn)
    {
      k := Scramble(a);
    }
  }

  lemma {:induction false} StateIsLinear(seed: nat, n: nat)
    requires seed < TWO_32
    ensures StateAfter(seed, n) == (seed + n * INCREMENT) % TWO_32
  {
    if n > 0 {
      StateIsLinear(seed, n - 1);
      AddModulo(seed + (n - 1) * INCREMENT, INCREMENT);
    }
  }

  lemma AddModulo(x: int, y: int)
    ensures (x % TWO_32 + y) % TWO_32 == (x + y) % TWO_32
  {
    var q := x / TWO_32;
    assert x == q * TWO_32 + x % TWO_32;
    SameRemainder(x % TWO_32 + y, q);
  }

  lemma SameRemainder(x: int, q: int)
    ensures (x + q * TWO_32) % TWO_32 == x % TWO_32
  {
  }

  // An odd multiplier maps no smaller positive number to a multiple of 2^32.
  lemma OddMultiplier(d: int, q: int)
    requires d * INCREMENT == q * TWO_32
    ensures d % TWO_32 == 0
  {
    assert INCREMENT * INVERSE == 1 + 1576479847 * TWO_32;
    assert d * (INCREMENT * INVERSE) == q * INVERSE * TWO_32;
    assert d == (q * INVERSE - d * 1576479847) * TWO_32;
    SameRemainder(0, q * INVERSE - d * 1576479847);
  }

  /** The generator's state does not repeat within 2^32 draws, from any seed. */
  lemma StatesDoNotRepeat(seed: nat, m: nat, n: nat)
    requires seed < TWO_32 && m < n < m + TWO_32
    ensures StateAfter(seed, m) != StateAfter(seed, n)
  {
    StateIsLinear(seed, m);
    StateIsLinear(seed, n);
    var x, y := seed + m * INCREMENT, seed + n * INCREMENT;
    if x % TWO_32 == y % TWO_32 {
      assert y - x == (y / TWO_32 - x / TWO_32) * TWO_32;
      assert y - x == (n - m) * INCREMENT;
      OddMultiplier(n - m, y / TWO_32 - x / TWO_32);
    }
  }

  // ---------- bounded draws ----------

  // Math.floor(draw * (max - min + 1)) + min, for the draw k / 2^32.
  function RandInt(k: nat, min: int, max: int): int {
    k * (max - min + 1) / TWO_32 + min
  }

  /** A draw over integer bounds stays within them, and for up to 2^32 values each is drawn. */
  lemma RandIntRange(k: nat, min: int, max: int)
    requires k < TWO_32 && min <= max
    ensures min <= RandInt(k, min, max) <= max
  {
    var n := max - min + 1;
    assert 0 <= k * n < TWO_32 * n;
    DivideBelow(k * n, n);
  }

  lemma DivideBelow(x: int, n: int)
    requires 0 <= x < n * TWO_32
    ensures 0 <= x / TWO_32 < n
  {
  }

  lemma RandIntHits(v: int, min: int, max: int) returns (k: nat)
    requires min <= v <= max && max - min + 1 <= TWO_32
    ensures k < TWO_32 && RandInt(k, min, max) == v
  {
    var n, w := max - min + 1, v - min;
    k := (w * TWO_32 + n - 1) / n;
    CeilingBounds(w * TWO_32, n, k);
    var x := k * n;
    assert w * TWO_32 <= x < (w + 1) * TWO_32;
    assert x / TWO_32 == w;
    assert k >= TWO_32 ==> x >= TWO_32 * n;
  }

  lemma CeilingBounds(x: int, n: int, k: int)
    requires 0 < n && k == (x + n - 1) / n
    ensures x <= k * n < x + n
  {
    assert (x + n - 1) == k * n + (x + n - 1) % n;
  }
}
