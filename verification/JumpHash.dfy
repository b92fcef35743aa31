/** Jump consistent hashing: get_node of scrapy_cffi/utils/algorithm.py. */
module JumpHash {
  import opened Arithmetic

  const TWO_31 := 0x8000_0000
  const TWO_33 := 0x2_0000_0000
  const TWO_64 := 0x1_0000_0000_0000_0000

  /** A 64-bit key: the first eight bytes of the fingerprint's MD5 digest, then its successors. */
  type Key = k: nat | k < TWO_64

  function Successor(key: Key): Key {
    (key * 2862933555777941757 + 1) % TWO_64
  }

  /** (key >> 33) + 1. */
  function Divisor(key: Key): (d: nat)
    ensures 1 <= d <= TWO_31
  {
    key / TWO_33 + 1
  }

  lemma DivisionGrows(product: nat, bucket: nat, d: nat)
    requires product == (bucket + 1) * TWO_31 && 1 <= d <= TWO_31
    ensures product / d >= bucket + 1
  {
    QuotientAtLeast(product, d, bucket + 1);
  }

  /** The candidate after `bucket`; exact division, rounded down. */
  function Candidate(bucket: nat, key: Key): (c: nat)
    ensures c > bucket
  {
    DivisionGrows((bucket + 1) * TWO_31, bucket, Divisor(key));
    (bucket + 1) * TWO_31 / Divisor(key)
  }

  /** The bucket of a key, from a candidate below `n` on. */
  function Bucket(key: Key, candidate: nat, n: nat): (b: nat)
    requires candidate < n
    ensures candidate <= b < n
    decreases n - candidate
  {
    var next := Successor(key);
    var c := Candidate(candidate, next);
    if c < n then Bucket(next, c, n) else candidate
  }

  /** The loop of get_node; candidates grow, so it ends, and the chosen index names a node. */
  method GetNode<T>(nodes: seq<T>, fingerprint: Key) returns (node: T, index: nat)
    requires nodes != []
    ensures index == Bucket(fingerprint, 0, |nodes|)
    ensures index < |nodes| && node == nodes[index]
  {
    var key, bucket, candidate := fingerprint, -1, 0;
    while candidate < |nodes|
      invariant 0 <= candidate && -1 <= bucket < |nodes| && bucket < candidate
      invariant bucket == -1 ==> candidate == 0
      invariant bucket >= 0 && candidate >= |nodes| ==> bucket == Bucket(fingerprint, 0, |nodes|)
      invariant candidate < |nodes| ==> Bucket(fingerprint, 0, |nodes|) == Bucket(key, candidate, |nodes|)
      decreases |nodes| - candidate
    {
      bucket := candidate;
      key := Successor(key);
      candidate := Candidate(bucket, key);
    }
    node, index := nodes[bucket], bucket;
  }

  /** Consistency: with more nodes a key stays where it was, or moves to one of the new nodes. */
  lemma {:induction false} GrowingMovesOnlyToNewNodes(key: Key, candidate: nat, n: nat, m: nat)
    requires candidate < n <= m
    ensures Bucket(key, candidate, m) == Bucket(key, candidate, n) || Bucket(key, candidate, m) >= n
    decreases n - candidate
  {
    var next := Successor(key);
    var c := Candidate(candidate, next);
    if c < n {
      GrowingMovesOnlyToNewNodes(next, c, n, m);
    }
  }

  /** One more node: nothing moves between the old ones. */
  lemma OneMoreNode(key: Key, n: nat)
    requires n >= 1
    ensures Bucket(key, 0, n + 1) == Bucket(key, 0, n) || Bucket(key, 0, n + 1) == n
  {
    GrowingMovesOnlyToNewNodes(key, 0, n, n + 1);
  }

  // ------------------------------------------------------------ which keys move

  /** A candidate is at least j exactly when j times the divisor fits into (bucket + 1) * 2^31. */
  lemma CandidateReaches(bucket: nat, key: Key, j: nat)
    ensures Candidate(bucket, key) >= j <==> j * (key / 0x2_0000_0000 + 1) <= (bucket + 1) * 0x8000_0000
  {
    var product, d := (bucket + 1) * TWO_31, Divisor(key);
    var c := product / d;
    assert product == c * d + product % d;
    if j * d <= product {
      QuotientAtLeast(product, d, j);
    } else {
      MulCancel(c, j, d);
    }
  }

  const MULTIPLIER := 2862933555777941757
  const INVERSE := 16133697096952638549      // of the multiplier, modulo 2^64

  /** The key before: the sequence of keys can be followed backwards. */
  function Predecessor(key: Key): Key {
    (key + TWO_64 - 1) * INVERSE % TWO_64
  }

  lemma PredecessorFirst(key: Key)
    ensures Successor(Predecessor(key)) == key
  {
    var x := key + TWO_64 - 1;
    var p, q := x * INVERSE % TWO_64, x * INVERSE / TWO_64;
    Undone(x, INVERSE, MULTIPLIER, 2503948805982125087, TWO_64, p, q);
    RemainderIs(p * MULTIPLIER + 1, TWO_64, key, x * 2503948805982125087 - q * MULTIPLIER + 1);
  }

  lemma SuccessorFirst(key: Key)
    ensures Predecessor(Successor(key)) == key
  {
    var s, q := (key * MULTIPLIER + 1) % TWO_64, (key * MULTIPLIER + 1) / TWO_64;
    var more := s + TWO_64 - 1;
    var t := (q - 1) * INVERSE;
    assert more * INVERSE == key * MULTIPLIER * INVERSE - TWO_64 * t;
    assert key * MULTIPLIER * INVERSE == key * (MULTIPLIER * INVERSE) == key + TWO_64 * (key * 2503948805982125087);
    RemainderIs(more * INVERSE, TWO_64, key, key * 2503948805982125087 - t);
  }

  /** The step from key to key loses nothing and misses nothing. */
  lemma KeysArePermuted(key: Key, other: Key)
    ensures Successor(key) == Successor(other) ==> key == other
    ensures Successor(Predecessor(key)) == key
  {
    PredecessorFirst(key);
    SuccessorFirst(key);
    SuccessorFirst(other);
  }

  predicate Within(a: nat, k: nat, b: nat) {
    a <= k < b
  }

  lemma {:induction false} IntervalSize(a: nat, b: nat)
    requires a <= b <= TWO_64
    ensures |set k: Key | Within(a, k, b)| == b - a
    decreases b - a
  {
    if a < b {
      IntervalSize(a, b - 1);
      var last: Key := b - 1;
      assert (set k: Key | Within(a, k, b)) == (set k: Key | Within(a, k, last)) + {last};
    } else {
      assert (set k: Key | Within(a, k, b)) == {};
    }
  }

  /** As many keys lead to a set of keys as there are in it. */
  lemma {:induction false} AsManyBefore(keys: set<Key>, after: set<Key>)
    requires forall k: Key :: k in keys <==> Successor(k) in after
    ensures |keys| == |after|
    decreases |after|
  {
    if after == {} {
      assert forall k :: k in keys ==> Successor(k) in after;
      assert keys == {};
    } else {
      var next :| next in after;
      var k := Predecessor(next);
      PredecessorFirst(next);
      forall other: Key ensures other in keys - {k} <==> Successor(other) in after - {next} {
        KeysArePermuted(other, k);
      }
      AsManyBefore(keys - {k}, after - {next});
    }
  }

  /** A key goes from the only node to a second one. */
  predicate Leaves(key: Key) {
    Bucket(key, 0, 2) == 1
  }

  /** That is so exactly when its successor is in the upper half. */
  lemma LeavesWhen(key: Key)
    ensures Leaves(key) <==> Successor(key) >= 0x8000_0000_0000_0000
  {
    var next := Successor(key);
    CandidateReaches(0, next, 2);
    assert Candidate(0, next) < 2 <==> next / TWO_33 + 1 > 0x4000_0000;
  }

  lemma AsManyAsTheUpperHalf(half: nat)
    requires half == 0x8000_0000_0000_0000
    ensures |set key: Key | Leaves(key)| == TWO_64 - half
  {
    var moving, upper := set key: Key | Leaves(key), set k: Key | Within(half, k, TWO_64);
    IntervalSize(half, TWO_64);
    forall key: Key ensures key in moving <==> Successor(key) in upper {
      LeavesWhen(key);
    }
    AsManyBefore(moving, upper);
  }

  /** Balance: of the 2^64 keys exactly half leave the only node when a second one is added. */
  lemma HalfOfTheKeysMove()
    ensures |set key: Key | Leaves(key)| == 0x8000_0000_0000_0000
  {
    AsManyAsTheUpperHalf(0x8000_0000_0000_0000);
  }

  lemma WorkedBucket(key: Key, next: Key, candidate: nat, n: nat)
    requires next == Successor(key) && candidate == 0x8000_0000 / (next / 0x2_0000_0000 + 1) && 1 <= n <= candidate
    ensures Bucket(key, 0, n) == 0
  {
  }

  lemma WorkedMove()
    ensures Bucket(4, 0, 2) == 1
  {
    LeavesWhen(4);
    assert Leaves(4);
  }

  /** Known keys: they pin the increment, the multiplier and the shift. */
  lemma WorkedKeys()
    ensures Successor(0) == 1 && Successor(1) == 2862933555777941758 && Successor(4) == 11451734223111767029
    ensures Bucket(0, 0, 3) == 0 && Bucket(4, 0, 2) == 1
  {
    WorkedBucket(0, 1, 2147483648, 3);
    WorkedMove();
  }

  // ------------------------------------------------------------ floating point

  const TWO_53 := 0x20_0000_0000_0000
  const TWO_22 := 0x40_0000

  predicate InRange(x: real) {
    1.0 <= x <= TWO_53 as real
  }

  /** Rounding to a double between 1 and 2^53, far from the subnormal numbers and from overflow: it keeps
      order, leaves integers alone and is off by at most one part in 2^53 (IEEE 754, round to nearest). */
  ghost predicate Rounds(rounded: real -> real) {
    && (forall x: real, y: real :: InRange(x) && InRange(y) && x <= y ==> rounded(x) <= rounded(y))
    && (forall x: real :: InRange(x) && x == x.Floor as real ==> rounded(x) == x)
    && (forall x: real :: InRange(x) ==> (rounded(x) - x) * TWO_53 as real <= x)
  }

  /** int((bucket + 1) * (1 << 31) / divisor) with the division carried out in doubles. */
  ghost function FloatCandidate(rounded: real -> real, bucket: nat, key: Key): int {
    rounded(((bucket + 1) * TWO_31) as real / Divisor(key) as real).Floor
  }

  lemma RealMulCancel(a: real, b: real, d: real)
    requires d > 0.0
    ensures a * d < b * d ==> a < b
    ensures a * d >= b * d ==> a >= b
  {
    assert (a - b) * d == a * d - b * d;
  }

  lemma FloorOfQuotient(product: nat, d: nat)
    requires d >= 1
    ensures (product / d) as real <= product as real / d as real
    ensures product as real / d as real * d as real == product as real
    ensures product + 1 <= (product / d + 1) * d
  {
    var x := product as real / d as real;
    assert x * d as real == product as real;
    var q := product / d;
    assert q * d <= product < (q + 1) * d;
    assert (q * d) as real == q as real * d as real;
    RealMulCancel(x, q as real, d as real);
  }

  lemma RealMulAtMost(x: real, y: real, d: real)
    requires x <= y && d > 0.0
    ensures x * d <= y * d
  {
  }

  /** A quotient of an integer below 2^53 is never rounded up to the next integer. */
  lemma RoundingStaysBelow(product: nat, d: nat, y: real)
    requires d >= 1 && product < TWO_53
    requires (y - product as real / d as real) * TWO_53 as real <= product as real / d as real
    ensures y < (product / d + 1) as real
  {
    FloorOfQuotient(product, d);
    var x, top := product as real / d as real, (product / d + 1) as real;
    assert top * d as real == ((product / d + 1) * d) as real;
    // Scaled by d: the gap to the next integer is at least 1, the rounding error below 1.
    RealMulAtMost((y - x) * TWO_53 as real, x, d as real);
    assert (y - x) * TWO_53 as real * d as real == (y * d as real - x * d as real) * TWO_53 as real;
    RealMulCancel(y, top, d as real);
  }

  lemma FloorIs(y: real, k: nat)
    requires k as real <= y < (k + 1) as real
    ensures y.Floor == k
  {
  }

  lemma QuotientFits(product: nat, d: nat)
    requires 1 <= d <= product < TWO_53
    ensures 1 <= product / d && (product / d) as real <= product as real / d as real <= TWO_53 as real
  {
    FloorOfQuotient(product, d);
    QuotientAtLeast(product, d, 1);
    RealMulCancel(TWO_53 as real, product as real / d as real, d as real);
    RealMulAtMost(1.0, d as real, TWO_53 as real);
  }

  lemma RoundingStaysAbove(rounded: real -> real, x: real, k: nat)
    requires Rounds(rounded) && 1 <= k && k as real <= x <= TWO_53 as real
    ensures k as real <= rounded(x)
  {
    var y := k as real;
    assert rounded(y) == y;
  }

  /** Rounding a number below the next integer k + 1 by too little to reach it leaves its floor k. */
  lemma RoundedFloor(rounded: real -> real, x: real, k: nat)
    requires Rounds(rounded) && 1 <= k && k as real <= x <= TWO_53 as real && rounded(x) < (k + 1) as real
    ensures rounded(x).Floor == k
  {
    RoundingStaysAbove(rounded, x, k);
    FloorIs(rounded(x), k);
  }

  lemma RoundingError(rounded: real -> real, x: real)
    requires Rounds(rounded) && InRange(x)
    ensures (rounded(x) - x) * TWO_53 as real <= x
  {
  }

  lemma RoundedQuotient(rounded: real -> real, product: nat, d: nat)
    requires Rounds(rounded) && 1 <= d <= product < TWO_53
    ensures rounded(product as real / d as real).Floor == product / d
  {
    var x, k := product as real / d as real, product / d;
    QuotientFits(product, d);
    RoundingError(rounded, x);
    RoundingStaysBelow(product, d, rounded(x));
    RoundedFloor(rounded, x, k);
  }

  /** Below 2^22 nodes the division in doubles chooses the same candidates, hence the same node. */
  lemma FloatsAgree(rounded: real -> real, bucket: nat, key: Key)
    requires Rounds(rounded) && bucket + 1 < TWO_22
    ensures FloatCandidate(rounded, bucket, key) == Candidate(bucket, key)
  {
    RoundedQuotient(rounded, (bucket + 1) * TWO_31, Divisor(key));
  }

  /** The loop of get_node as it runs, with its quotients rounded to doubles. */
  ghost function FloatBucket(rounded: real -> real, key: Key, candidate: nat, n: nat): nat
    requires Rounds(rounded) && candidate < n < TWO_22
    decreases n - candidate
  {
    var next := Successor(key);
    FloatsAgree(rounded, candidate, next);
    var c := FloatCandidate(rounded, candidate, next);
    if c < n then FloatBucket(rounded, next, c, n) else candidate
  }

  lemma {:induction false} DoublesChooseTheSameNode(rounded: real -> real, key: Key, candidate: nat, n: nat)
    requires Rounds(rounded) && candidate < n < TWO_22
    ensures FloatBucket(rounded, key, candidate, n) == Bucket(key, candidate, n)
    decreases n - candidate
  {
    var next := Successor(key);
    FloatsAgree(rounded, candidate, next);
    if Candidate(candidate, next) < n {
      DoublesChooseTheSameNode(rounded, next, Candidate(candidate, next), n);
    }
  }
}
