/** The two FNV-1a variants: examples/c_bloom/bloom.c on 32-bit words, and
    scrapy_cffi/cpy/cpy_resources/bloom/fallback.py on Python's unbounded integers. */
module Fnv {
  import opened Arithmetic

  const TWO_32: nat := 0x1_0000_0000
  const OFFSET_BASIS: nat := 2166136261
  const PRIME: nat := 16777619

  type Byte = b: nat | b < 256

  /** Exclusive or, on numbers of any length. */
  function Xor(a: nat, b: nat): nat
    decreases a + b
  {
    if a == 0 && b == 0 then 0 else 2 * Xor(a / 2, b / 2) + (a + b) % 2
  }

  /** The rounds over the data; both variants cut every product to 32 bits. */
  function Rounds(hash: nat, data: seq<Byte>): nat
    decreases |data|
  {
    if data == [] then hash else Rounds(Xor(hash, data[0]) * PRIME % TWO_32, data[1..])
  }

  /** fnv1a_hash_bytes: the seed is cut to 32 bits first, and products wrap. */
  method HashC(data: seq<Byte>, seed: nat) returns (hash: nat)
    ensures hash == Rounds(Xor(OFFSET_BASIS, seed % TWO_32), data)
  {
    hash := Xor(OFFSET_BASIS, seed % TWO_32);
    ghost var start := hash;
    for i := 0 to |data|
      invariant Rounds(hash, data[i..]) == Rounds(start, data)
    {
      hash := Xor(hash, data[i]);
      hash := hash * PRIME % TWO_32;
    }
  }

  /** fnv1a_hash: the seed is taken as it is. */
  method HashPython(data: seq<Byte>, seed: nat) returns (hash: nat)
    ensures hash == Rounds(Xor(OFFSET_BASIS, seed), data)
  {
    hash := Xor(OFFSET_BASIS, seed);
    ghost var start := hash;
    for i := 0 to |data|
      invariant Rounds(hash, data[i..]) == Rounds(start, data)
    {
      hash := Xor(hash, data[i]);
      hash := (hash * PRIME) % TWO_32;
    }
  }

  // ------------------------------------------------------------ agreement

  function Pow2(k: nat): nat
    ensures Pow2(k) > 0
  {
    if k == 0 then 1 else 2 * Pow2(k - 1)
  }

  lemma Doubled(high: nat, q: nat)
    ensures high * (2 * q) == 2 * (high * q)
  {
  }

  /** Splitting at one more bit. */
  lemma HalveSplit(a: nat, q: nat, p: nat)
    requires q > 0 && p == 2 * q
    ensures a / p == (a / 2) / q >= 0
    ensures a % p == 2 * ((a / 2) % q) + a % 2
  {
    var h := a / 2;
    assert a == 2 * ((h / q) * q + h % q) + a % 2;
    Doubled(h / q, q);
    QuotientIs(a, p, h / q, 2 * (h % q) + a % 2);
  }

  lemma XorJoins(x: nat, y: nat, u: nat, v: nat)
    requires u < 2 && v < 2
    ensures Xor(2 * x + u, 2 * y + v) == 2 * Xor(x, y) + (u + v) % 2
  {
    assert (2 * x + u) / 2 == x && (2 * y + v) / 2 == y;
    assert (2 * x + u + (2 * y + v)) % 2 == (u + v) % 2;
  }

  /** Upper and lower bits do not touch each other. */
  ghost predicate SplitsAt(a: nat, b: nat, p: nat)
    requires p > 0
  {
    Xor(a % p, b % p) < p && Xor(a, b) == Xor(a / p, b / p) * p + Xor(a % p, b % p)
  }

  lemma HalvesJoin(a: nat, b: nat, ah: nat, al: nat, bh: nat, bl: nat, u: nat, v: nat, q: nat, p: nat)
    requires u == a % 2 && v == b % 2 && p == 2 * q
    requires Xor(al, bl) < q && Xor(a / 2, b / 2) == Xor(ah, bh) * q + Xor(al, bl)
    ensures Xor(2 * al + u, 2 * bl + v) < p
    ensures Xor(a, b) == Xor(ah, bh) * p + Xor(2 * al + u, 2 * bl + v)
  {
    XorJoins(a / 2, b / 2, u, v);
    XorJoins(al, bl, u, v);
    Doubled(Xor(ah, bh), q);
  }

  lemma SplitsOneFurther(a: nat, b: nat, q: nat, p: nat)
    requires q > 0 && p == 2 * q && SplitsAt(a / 2, b / 2, q)
    ensures SplitsAt(a, b, p)
  {
    HalveSplit(a, q, p);
    HalveSplit(b, q, p);
    HalvesJoin(a, b, (a / 2) / q, (a / 2) % q, (b / 2) / q, (b / 2) % q, a % 2, b % 2, q, p);
  }

  lemma {:induction false} XorSplits(a: nat, b: nat, k: nat)
    ensures SplitsAt(a, b, Pow2(k))
  {
    if k > 0 {
      XorSplits(a / 2, b / 2, k - 1);
      SplitsOneFurther(a, b, Pow2(k - 1), Pow2(k));
    }
  }

  lemma Pow2Of32()
    ensures Pow2(32) == TWO_32
  {
    assert Pow2(8) == 256;
    assert Pow2(16) == 256 * 256;
    assert Pow2(24) == 256 * 256 * 256;
  }

  lemma XorModulo(a: nat, b: nat)
    ensures Xor(a, b) % TWO_32 == Xor(a % TWO_32, b % TWO_32)
    ensures Xor(a, b) / TWO_32 == Xor(a / TWO_32, b / TWO_32)
  {
    Pow2Of32();
    XorSplits(a, b, 32);
    QuotientIs(Xor(a, b), TWO_32, Xor(a / TWO_32, b / TWO_32), Xor(a % TWO_32, b % TWO_32));
  }

  lemma {:induction false} XorZero(b: nat)
    ensures Xor(0, b) == b
  {
    if b > 0 {
      XorZero(b / 2);
    }
  }

  lemma MulModulo(x: nat)
    ensures (x % TWO_32) * PRIME % TWO_32 == x * PRIME % TWO_32
  {
    assert x == (x / TWO_32) * TWO_32 + x % TWO_32;
    assert x * PRIME == (x / TWO_32 * PRIME) * TWO_32 + (x % TWO_32) * PRIME;
  }

  /** One round forgets everything above 32 bits. */
  lemma RoundForgets(hash: nat, b: Byte)
    ensures Xor(hash % TWO_32, b) * PRIME % TWO_32 == Xor(hash, b) * PRIME % TWO_32
  {
    XorModulo(hash, b);
    MulModulo(Xor(hash, b));
  }

  /** The C and the Python variant give the same hash for every datum exactly when there is a first
      round to mask the seed, or the seed fits 32 bits anyway. */
  lemma VariantsAgree(data: seq<Byte>, seed: nat)
    ensures Rounds(Xor(OFFSET_BASIS, seed % TWO_32), data) == Rounds(Xor(OFFSET_BASIS, seed), data)
            <==> data != [] || seed < TWO_32
  {
    XorModulo(OFFSET_BASIS, seed);
    XorZero(seed / TWO_32);
    if data != [] {
      RoundForgets(Xor(OFFSET_BASIS, seed), data[0]);
    }
  }

  /** The bitmap indices of one value: one seeded hash for each probe. */
  function Indices(start: nat -> nat, data: seq<Byte>, size: nat, count: nat): (indices: seq<nat>)
    requires size > 0
    ensures |indices| == count && forall k :: 0 <= k < count ==> indices[k] < size
  {
    seq(count, i requires 0 <= i < count => Rounds(start(i), data) % size)
  }

  /** As probes are numbered from zero, both variants derive the same indices for every value. */
  lemma IndicesAgree(data: seq<Byte>, size: nat, count: nat)
    requires size > 0 && count <= TWO_32
    ensures Indices(i => Xor(OFFSET_BASIS, i % TWO_32), data, size, count) == Indices(i => Xor(OFFSET_BASIS, i), data, size, count)
  {
    forall i | 0 <= i < count
      ensures Rounds(Xor(OFFSET_BASIS, i % TWO_32), data) == Rounds(Xor(OFFSET_BASIS, i), data)
    {
      VariantsAgree(data, i);
    }
  }

  // ------------------------------------------------------------ nothing is lost in a round

  const INVERSE: nat := 899433627       // of the prime, modulo 2^32
  const COFACTOR: nat := 3513497

  lemma XorStep(a: nat, b: nat)
    ensures Xor(a, b) / 2 == Xor(a / 2, b / 2) && Xor(a, b) % 2 == (a + b) % 2
  {
    if a == 0 && b == 0 {
      assert Xor(0, 0) == 0;
    }
  }

  /** A number from its half and its parity. */
  lemma Rejoined(a: nat, b: nat, x: nat, y: nat)
    requires x % 2 == (a + b) % 2 && y % 2 == (x + b) % 2 && y / 2 == a / 2
    ensures y == a
  {
  }

  lemma {:induction false} XorBack(a: nat, b: nat)
    ensures Xor(Xor(a, b), b) == a
    decreases a + b
  {
    if a != 0 || b != 0 {
      var x := Xor(a, b);
      XorBack(a / 2, b / 2);
      XorStep(a, b);
      XorStep(x, b);
      Rejoined(a, b, x, Xor(x, b));
    }
  }

  lemma {:induction false} XorCommutes(a: nat, b: nat)
    ensures Xor(a, b) == Xor(b, a)
    decreases a + b
  {
    if a != 0 || b != 0 {
      XorCommutes(a / 2, b / 2);
    }
  }

  lemma SmallRemainder(a: nat, p: nat)
    requires a < p
    ensures a % p == a
  {
  }

  lemma XorBelow(a: nat, b: nat, k: nat)
    requires a < Pow2(k) && b < Pow2(k)
    ensures Xor(a, b) < Pow2(k)
  {
    XorSplits(a, b, k);
    SmallRemainder(a, Pow2(k));
    SmallRemainder(b, Pow2(k));
  }

  lemma XorFits(a: nat, b: nat)
    requires a < TWO_32 && b < TWO_32
    ensures Xor(a, b) < TWO_32
  {
    Pow2Of32();
    XorBelow(a, b, 32);
  }

  lemma ProductBack(x: nat)
    requires x < TWO_32
    ensures x * PRIME % TWO_32 * INVERSE % TWO_32 == x
  {
    var p, q := x * PRIME % TWO_32, x * PRIME / TWO_32;
    Undone(x, PRIME, INVERSE, COFACTOR, TWO_32, p, q);
    RemainderIs(p * INVERSE, TWO_32, x, x * COFACTOR - q * INVERSE);
  }

  /** A round maps the 32-bit hashes one to one. */
  lemma RoundIsInjective(hash: nat, other: nat, b: Byte)
    requires hash < TWO_32 && other < TWO_32
    ensures Xor(hash, b) * PRIME % TWO_32 == Xor(other, b) * PRIME % TWO_32 ==> hash == other
  {
    XorFits(hash, b);
    XorFits(other, b);
    ProductBack(Xor(hash, b));
    ProductBack(Xor(other, b));
    XorBack(hash, b);
    XorBack(other, b);
  }

  lemma {:induction false} RoundsAreInjective(hash: nat, other: nat, data: seq<Byte>)
    requires hash < TWO_32 && other < TWO_32
    ensures Rounds(hash, data) == Rounds(other, data) ==> hash == other
    decreases |data|
  {
    if data != [] {
      RoundIsInjective(hash, other, data[0]);
      RoundsAreInjective(Xor(hash, data[0]) * PRIME % TWO_32, Xor(other, data[0]) * PRIME % TWO_32, data[1..]);
    }
  }

  /** The seeded hashes of one value are all different. */
  lemma SeedsAreKeptApart(data: seq<Byte>, seed: nat, other: nat)
    requires seed < TWO_32 && other < TWO_32 && seed != other
    ensures Rounds(Xor(OFFSET_BASIS, seed), data) != Rounds(Xor(OFFSET_BASIS, other), data)
  {
    XorFits(OFFSET_BASIS, seed);
    XorFits(OFFSET_BASIS, other);
    XorCommutes(OFFSET_BASIS, seed);
    XorCommutes(OFFSET_BASIS, other);
    XorBack(seed, OFFSET_BASIS);
    XorBack(other, OFFSET_BASIS);
    RoundsAreInjective(Xor(OFFSET_BASIS, seed), Xor(OFFSET_BASIS, other), data);
  }

  lemma {:induction false} XorZeroRight(a: nat)
    ensures Xor(a, 0) == a
  {
    if a > 0 {
      XorZeroRight(a / 2);
    }
  }

  lemma XorLowByte(hash: nat, b: Byte)
    ensures Xor(hash, b) == hash / 256 * 256 + Xor(hash % 256, b)
  {
    assert Pow2(8) == 256;
    XorSplits(hash, b, 8);
    XorZeroRight(hash / 256);
  }

  /** One round on known numbers: only the lowest byte meets the datum. */
  lemma KnownRound(high: nat, byte: Byte, b: Byte, low: nat, rest: seq<Byte>)
    requires low == Xor(byte, b)
    ensures Rounds(high * 256 + byte, [b] + rest) == Rounds((high * 256 + low) * PRIME % TWO_32, rest)
  {
    var hash := high * 256 + byte;
    assert hash / 256 == high && hash % 256 == byte;
    XorLowByte(hash, b);
    assert ([b] + rest)[0] == b && ([b] + rest)[1..] == rest;
  }

  lemma KnownByte()
    ensures Xor(197, 97) == 164
  {
    assert Xor(1, 0) == 1 && Xor(3, 1) == 2 && Xor(6, 3) == 5;
    assert Xor(12, 6) == 10 && Xor(24, 12) == 20 && Xor(49, 24) == 41 && Xor(98, 48) == 82;
  }

  lemma KnownStart(start: nat)
    requires start == OFFSET_BASIS
    ensures Rounds(start, [97]) == 0xe40c292c
  {
    assert start / 256 * 256 + 197 == start && (start / 256 * 256 + 164) * PRIME % TWO_32 == 0xe40c292c;
    KnownByte();
    KnownRound(start / 256, 197, 97, 164, []);
    assert [97] + [] == [97];
  }

  /** Known hashes, of nothing and of "a", from the start that seed zero gives: they pin the basis, the
      prime, and that the exclusive or comes first. */
  lemma KnownHashes(start: nat, basis: nat)
    requires basis == OFFSET_BASIS && start == Xor(basis, 0)
    ensures Rounds(start, []) == 0x811c9dc5 && Rounds(start, [97]) == 0xe40c292c
  {
    XorZeroRight(basis);
    KnownStart(start);
  }
}
