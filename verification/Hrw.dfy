/** The rendezvous score (internal/shared/hrw.go:8-14): FNV-1a, 64 bits, over room, "|", app. */
module Hrw {
  import opened Names

  const FNV_OFFSET: nat := 14695981039346656037
  const FNV_PRIME: nat := 1099511628211
  const TWO_64: nat := 0x1_0000_0000_0000_0000

  // The inverse of the prime modulo 2^64, and the quotient that witnesses it.
  const PRIME_INVERSE: nat := 14886173955864302971
  const INVERSE_QUOTIENT: nat := 887285111055

  const BAR: Text := [124]  // "|"

  function Pow2(n: nat): nat {
    if n == 0 then 1 else 2 * Pow2(n - 1)
  }

  /** Bitwise exclusive or of the low n bits. */
  function Xor(x: nat, y: nat, n: nat): (r: nat)
    ensures r < Pow2(n)
  {
    if n == 0 then 0 else (x % 2 + y % 2) % 2 + 2 * Xor(x / 2, y / 2, n - 1)
  }

  /** h ^ b for a byte b: only the low eight bits of h change. */
  function XorByte(h: nat, b: byte): nat {
    h / 256 * 256 + Xor(h % 256, b as nat, 8)
  }

  function Mix(h: nat, b: byte): (r: nat)
    ensures r < TWO_64
  {
    XorByte(h, b) * FNV_PRIME % TWO_64
  }

  function Fnv(h: nat, data: Text): nat
    decreases |data|
  {
    if data == [] then h else Fnv(Mix(h, data[0]), data[1..])
  }

  function Score(room: Text, app: Text): nat {
    Fnv(FNV_OFFSET, room + BAR + app)
  }

  /** The running hasher: Write folds a chunk into the state one byte at a time. */
  class Hasher {
    var sum: nat

    constructor ()
      ensures sum == FNV_OFFSET
    {
      sum := FNV_OFFSET;
    }

    method Write(data: Text)
      modifies this
      ensures sum == Fnv(old(sum), data)
    {
      var i := 0;
      while i < |data|
        invariant 0 <= i <= |data|
        invariant Fnv(sum, data[i..]) == Fnv(old(sum), data)
      {
        sum := Mix(sum, data[i]);
        i := i + 1;
      }
    }
  }

  /** Three successive writes hash the concatenation. */
  method ComputeScore(room: Text, app: Text) returns (score: nat)
    ensures score == Score(room, app)
    ensures score < TWO_64
  {
    var h := new Hasher();
    h.Write(room);
    h.Write(BAR);
    h.Write(app);
    FnvConcat(FNV_OFFSET, room, BAR);
    FnvConcat(FNV_OFFSET, room + BAR, app);
    FnvBound(FNV_OFFSET, room + BAR + app);
    return h.sum;
  }

  /** A known answer of the 64-bit FNV-1a hash, for the string "a". */
  lemma KnownAnswer()
    ensures Fnv(FNV_OFFSET, [97]) == 0xaf63dc4c8601ec8c
  {
    assert Xor(2, 6, 4) == 4 && Xor(37, 97, 8) == 68;
    assert FNV_OFFSET % 256 == 37;
    assert XorByte(FNV_OFFSET, 97) == FNV_OFFSET - 37 + 68;
    assert Mix(FNV_OFFSET, 97) == 0xaf63dc4c8601ec8c;
    assert [97 as byte][1..] == [];
  }

  lemma XorStep(x: nat, y: nat, n: nat)
    requires n > 0
    ensures Xor(x, y, n) == (x % 2 + y % 2) % 2 + 2 * Xor(x / 2, y / 2, n - 1)
  {
  }

  /** Eight steps of Xor, from the values each of them meets. */
  lemma XorBy(xs: seq<nat>, ys: seq<nat>, rs: seq<nat>, n: nat)
    requires |xs| == |ys| == |rs| == n + 1 && rs[n] == 0
    requires forall i | 0 <= i < n ::
               && xs[i + 1] == xs[i] / 2 && ys[i + 1] == ys[i] / 2
               && rs[i] == (xs[i] % 2 + ys[i] % 2) % 2 + 2 * rs[i + 1]
    ensures Xor(xs[0], ys[0], n) == rs[0]
  {
    if n > 0 {
      XorStep(xs[0], ys[0], n);
      XorBy(xs[1..], ys[1..], rs[1..], n - 1);
    }
  }

  lemma KnownXors(x: nat, y: nat)
    ensures x == 140 && y == 124 ==> Xor(x, y, 8) == 240
    ensures x == 208 && y == 98 ==> Xor(x, y, 8) == 178
  {
    if x == 140 && y == 124 {
      XorBy([x, 70, 35, 17, 8, 4, 2, 1, 0], [y, 62, 31, 15, 7, 3, 1, 0, 0], [240, 120, 60, 30, 15, 7, 3, 1, 0], 8);
    }
    if x == 208 && y == 98 {
      XorBy([x, 104, 52, 26, 13, 6, 3, 1, 0], [y, 49, 24, 12, 6, 3, 1, 0, 0], [178, 89, 44, 22, 11, 5, 2, 1, 0], 8);
    }
  }

  lemma XorByteOf(h: nat, b: byte, mixed: nat)
    requires Xor(h % 256, b as nat, 8) == mixed
    ensures XorByte(h, b) == h - h % 256 + mixed
  {
  }

  lemma MixOf(h: nat, b: byte, mixed: nat, r: nat)
    requires XorByte(h, b) == mixed && mixed * FNV_PRIME % TWO_64 == r
    ensures Mix(h, b) == r
  {
  }

  lemma KnownProducts()
    ensures 0xaf63dc4c8601ecf0 * FNV_PRIME % TWO_64 == 0x089c4607b5459bd0
    ensures 0x089c4607b5459bb2 * FNV_PRIME % TWO_64 == 0xe726b11905478f76
  {
  }

  lemma OneMore(h: nat, b: byte)
    ensures Fnv(h, [b]) == Mix(h, b)
  {
    assert [b][1..] == [];
  }

  lemma KnownMix(h: nat, b: byte, low: nat, mixed: nat, r: nat)
    requires h % 256 == low && Xor(low, b as nat, 8) == mixed
    requires (h - low + mixed) * FNV_PRIME % TWO_64 == r
    ensures Mix(h, b) == r
  {
    XorByteOf(h, b, mixed);
    MixOf(h, b, h - low + mixed, r);
  }

  lemma KnownBar(h: nat)
    requires h == 0xaf63dc4c8601ec8c
    ensures Mix(h, 124) == 0x089c4607b5459bd0
  {
    KnownXors(140, 124);
    KnownProducts();
    KnownMix(h, 124, 140, 240, 0x089c4607b5459bd0);
  }

  lemma KnownLast(h: nat)
    requires h == 0x089c4607b5459bd0
    ensures Mix(h, 98) == 0xe726b11905478f76
  {
    KnownXors(208, 98);
    KnownProducts();
    KnownMix(h, 98, 208, 178, 0xe726b11905478f76);
  }

  /** The score of app "b" for room "a" is the hash of "a|b". */
  lemma KnownScore()
    ensures Score(Ascii("a"), Ascii("b")) == 0xe726b11905478f76
  {
    assert Ascii("a") == [97] && Ascii("b") == [98];
    KnownAnswer();
    FnvConcat(FNV_OFFSET, [97] + BAR, [98]);
    FnvConcat(FNV_OFFSET, [97], BAR);
    var h := Fnv(FNV_OFFSET, [97]);
    KnownBar(h);
    KnownLast(Mix(h, 124));
    OneMore(h, 124);
    OneMore(Mix(h, 124), 98);
  }

  lemma {:induction false} FnvConcat(h: nat, a: Text, b: Text)
    ensures Fnv(h, a + b) == Fnv(Fnv(h, a), b)
    decreases |a|
  {
    if a == [] {
      assert a + b == b;
    } else {
      assert (a + b)[1..] == a[1..] + b;
      FnvConcat(Mix(h, a[0]), a[1..], b);
    }
  }

  lemma {:induction false} FnvBound(h: nat, data: Text)
    requires h < TWO_64
    ensures Fnv(h, data) < TWO_64
    decreases |data|
  {
    if data != [] {
      FnvBound(Mix(h, data[0]), data[1..]);
    }
  }

  lemma SplitBit(u: nat, p: nat, v: nat, q: nat)
    requires u < 2 && v < 2
    ensures u + 2 * p == v + 2 * q <==> u == v && p == q
  {
  }

  lemma {:induction false} XorInjective(x: nat, y: nat, b: nat, n: nat)
    requires x < Pow2(n) && y < Pow2(n)
    requires Xor(x, b, n) == Xor(y, b, n)
    ensures x == y
  {
    if n > 0 {
      var p, q := Xor(x / 2, b / 2, n - 1), Xor(y / 2, b / 2, n - 1);
      SplitBit((x % 2 + b % 2) % 2, p, (y % 2 + b % 2) % 2, q);
      XorInjective(x / 2, y / 2, b / 2, n - 1);
      SplitBit(x % 2, x / 2, y % 2, y / 2);
    }
  }

  lemma {:induction false} XorCommutes(x: nat, y: nat, n: nat)
    ensures Xor(x, y, n) == Xor(y, x, n)
  {
    if n > 0 {
      XorCommutes(x / 2, y / 2, n - 1);
    }
  }

  lemma EightBits()
    ensures Pow2(8) == 256
  {
    assert Pow2(4) == 16;
  }

  lemma XorByteInjective(h: nat, k: nat, b: byte, c: byte)
    requires XorByte(h, b) == XorByte(k, c)
    ensures b == c ==> h == k
    ensures h == k ==> b == c
  {
    EightBits();
    var x, y := h % 256, k % 256;
    SplitUnique(h / 256, Xor(x, b as nat, 8), k / 256, Xor(y, c as nat, 8));
    if b == c {
      XorInjective(x, y, b as nat, 8);
    }
    if h == k {
      XorCommutes(x, b as nat, 8);
      XorCommutes(y, c as nat, 8);
      XorInjective(b as nat, c as nat, x, 8);
    }
  }

  lemma SplitUnique(p: nat, x: nat, q: nat, y: nat)
    requires x < 256 && y < 256 && p * 256 + x == q * 256 + y
    ensures p == q && x == y
  {
  }

  /** Multiplication by the odd prime is a bijection modulo 2^64: it can be undone. */
  lemma PrimeInjective(x: nat, y: nat)
    requires x < TWO_64 && y < TWO_64
    requires x * FNV_PRIME % TWO_64 == y * FNV_PRIME % TWO_64
    ensures x == y
  {
    var q := x * FNV_PRIME / TWO_64 - y * FNV_PRIME / TWO_64;
    assert (x - y) * FNV_PRIME == q * TWO_64;
    Unmultiply(x - y, q);
  }

  lemma Unmultiply(d: int, q: int)
    requires d * FNV_PRIME == q * TWO_64 && 0 - TWO_64 < d < TWO_64
    ensures d == 0
  {
    assert d * FNV_PRIME * PRIME_INVERSE == q * TWO_64 * PRIME_INVERSE;
    var m := q * PRIME_INVERSE - d * INVERSE_QUOTIENT;
    assert d == m * TWO_64;
  }

  lemma XorByteBound(h: nat, b: byte)
    requires h < TWO_64
    ensures XorByte(h, b) < TWO_64
  {
    EightBits();
  }

  lemma MixInjective(h: nat, k: nat, b: byte, c: byte)
    requires h < TWO_64 && k < TWO_64
    requires Mix(h, b) == Mix(k, c)
    ensures b == c ==> h == k
    ensures h == k ==> b == c
  {
    XorByteBound(h, b);
    XorByteBound(k, c);
    PrimeInjective(XorByte(h, b), XorByte(k, c));
    XorByteInjective(h, k, b, c);
  }

  /** Different states stay different under any common suffix. */
  lemma {:induction false} FnvInjective(h: nat, k: nat, data: Text)
    requires h < TWO_64 && k < TWO_64 && h != k
    ensures Fnv(h, data) != Fnv(k, data)
    decreases |data|
  {
    if data != [] {
      if Mix(h, data[0]) == Mix(k, data[0]) {
        MixInjective(h, k, data[0], data[0]);
      }
      FnvInjective(Mix(h, data[0]), Mix(k, data[0]), data[1..]);
    }
  }

  lemma ScoreAround(room: Text, a: Text, k: nat)
    requires k < |a|
    ensures Score(room, a) == Fnv(Mix(Fnv(FNV_OFFSET, room + BAR + a[..k]), a[k]), a[k + 1..])
  {
    var pre, rest := room + BAR + a[..k], a[k + 1..];
    assert room + BAR + a == pre + ([a[k]] + rest);
    FnvConcat(FNV_OFFSET, pre, [a[k]] + rest);
    assert ([a[k]] + rest)[1..] == rest;
  }

  /** Names such as app-1 and app-2, of one length and differing in a single byte, never tie,
      whatever the room. */
  lemma NearNamesNeverTie(room: Text, a: Text, b: Text, k: nat)
    requires |a| == |b| && k < |a| && a[k] != b[k]
    requires a[..k] == b[..k] && a[k + 1..] == b[k + 1..]
    ensures Score(room, a) != Score(room, b)
  {
    ScoreAround(room, a, k);
    ScoreAround(room, b, k);
    var h := Fnv(FNV_OFFSET, room + BAR + a[..k]);
    FnvBound(FNV_OFFSET, room + BAR + a[..k]);
    if Mix(h, a[k]) == Mix(h, b[k]) {
      MixInjective(h, h, a[k], b[k]);
    }
    FnvInjective(Mix(h, a[k]), Mix(h, b[k]), a[k + 1..]);
  }
}
