/** The byte-array Bloom filters of scrapy_cffi/platform/bloom.py, examples/c_bloom/bloom.c and
    scrapy_cffi/cpy/cpy_resources/bloom/fallback.py, against sets of bit positions. */
module BloomFilters {
  import opened Arithmetic
  type Place = k: nat | k < 8

  function Probe(k: Place): bv8 {
    1 << k
  }

  predicate BitOf(b: bv8, k: Place) {
    (b >> k) & 1 != 0
  }

  lemma SettingBits(b: bv8, k: bv8, j: bv8)
    requires k < 8 && j < 8
    ensures ((b | (1 << k)) >> j) & 1 != 0 <==> j == k || (b >> j) & 1 != 0
  {
  }

  lemma SettingOneBit(b: bv8, k: Place, j: Place)
    ensures BitOf(b | Probe(k), j) <==> j == k || BitOf(b, j)
  {
    SettingBits(b, k as bv8, j as bv8);
  }

  predicate IsSet(bytes: seq<bv8>, i: nat) {
    i / 8 < |bytes| && BitOf(bytes[i / 8], i % 8)
  }

  /** The positions that are set. */
  ghost function Bits(bytes: seq<bv8>): set<nat> {
    set i: nat | i < 8 * |bytes| && IsSet(bytes, i)
  }

  ghost function Elements(indices: seq<nat>): (s: set<nat>) {
    set i | i in indices
  }

  lemma PlaceIsUnique(i: nat, j: nat)
    requires i / 8 == j / 8 && i % 8 == j % 8
    ensures i == j
  {
  }

  /** Writing one byte with one more bit sets that position and no other. */
  lemma SettingOnePosition(bytes: seq<bv8>, index: nat)
    requires index / 8 < |bytes|
    ensures Bits(bytes[index / 8 := bytes[index / 8] | Probe(index % 8)]) == Bits(bytes) + {index}
  {
    var after := bytes[index / 8 := bytes[index / 8] | Probe(index % 8)];
    forall i: nat | i < 8 * |bytes| ensures IsSet(after, i) <==> i == index || IsSet(bytes, i) {
      if i / 8 == index / 8 {
        SettingOneBit(bytes[i / 8], index % 8, i % 8);
        assert i % 8 == index % 8 ==> i == index by {
          if i % 8 == index % 8 {
            PlaceIsUnique(i, index);
          }
        }
      }
    }
  }

  lemma NoBitOfZero(k: Place)
    ensures !BitOf(0, k)
  {
    assert (0 as bv8) >> (k as bv8) == 0;
  }

  lemma ZeroesAreEmpty(bytes: seq<bv8>)
    requires forall k :: 0 <= k < |bytes| ==> bytes[k] == 0
    ensures Bits(bytes) == {}
  {
    forall i: nat | i < 8 * |bytes| ensures !IsSet(bytes, i) {
      NoBitOfZero(i % 8);
    }
  }

  lemma ElementsAppend(indices: seq<nat>, index: nat)
    ensures Elements(indices + [index]) == Elements(indices) + {index}
  {
    assert (indices + [index])[|indices|] == index;
  }

  class BloomFilter {
    const size: nat
    var bitArray: array<bv8>
    var inserted: nat

    ghost predicate Valid()
      reads this, bitArray
    {
      0 < size <= 8 * bitArray.Length
    }

    /** The platform filter rounds its size up to whole bytes; the C filter and its fallback keep the
        size and only round the array. */
    constructor (requested: nat, aligned: bool)
      requires requested > 0
      ensures Valid() && fresh(bitArray) && Bits(bitArray[..]) == {} && inserted == 0
      ensures requested <= size < requested + 8 && (aligned ==> size % 8 == 0) && (!aligned ==> size == requested)
    {
      var bytes := (requested + 7) / 8;
      size := if aligned then bytes * 8 else requested;
      bitArray := new bv8[bytes](_ => 0);
      inserted := 0;
      new;
      ZeroesAreEmpty(bitArray[..]);
    }

    method SetBit(index: nat)
      requires Valid() && index < size
      modifies bitArray
      ensures Bits(bitArray[..]) == old(Bits(bitArray[..])) + {index}
    {
      SettingOnePosition(bitArray[..], index);
      assert bitArray[..][index / 8 := bitArray[index / 8] | Probe(index % 8)]
          == bitArray[..index / 8] + [bitArray[index / 8] | Probe(index % 8)] + bitArray[index / 8 + 1..];
      bitArray[index / 8] := bitArray[index / 8] | Probe(index % 8);
    }

    method GetBit(index: nat) returns (r: bool)
      requires Valid() && index < size
      ensures r <==> index in Bits(bitArray[..])
    {
      assert IsSet(bitArray[..], index) <==> index in Bits(bitArray[..]);
      r := (bitArray[index / 8] >> (index % 8)) & 1 != 0;
    }

    /** add: sets exactly the derived positions and clears none. */
    method Add(indices: seq<nat>)
      requires Valid() && forall i :: i in indices ==> i < size
      modifies this`inserted, bitArray
      ensures Valid() && inserted == old(inserted) + 1
      ensures Bits(bitArray[..]) == old(Bits(bitArray[..])) + Elements(indices)
    {
      for k := 0 to |indices|
        invariant inserted == old(inserted)
        invariant Bits(bitArray[..]) == old(Bits(bitArray[..])) + Elements(indices[..k])
      {
        assert indices[k] in indices;
        SetBit(indices[k]);
        ElementsAppend(indices[..k], indices[k]);
        assert indices[..k + 1] == indices[..k] + [indices[k]];
      }
      assert indices[..|indices|] == indices;
      inserted := inserted + 1;
    }

    /** exists: are all derived positions set? */
    method Exists(indices: seq<nat>) returns (r: bool)
      requires Valid() && forall i :: i in indices ==> i < size
      ensures r <==> Elements(indices) <= Bits(bitArray[..])
    {
      for k := 0 to |indices|
        invariant Elements(indices[..k]) <= Bits(bitArray[..])
      {
        assert indices[k] in indices && indices[k] in Elements(indices);
        var present := GetBit(indices[k]);
        if !present {
          return false;
        }
        ElementsAppend(indices[..k], indices[k]);
        assert indices[..k + 1] == indices[..k] + [indices[k]];
      }
      assert indices[..|indices|] == indices;
      r := true;
    }

    method Clear()
      requires Valid()
      modifies this
      ensures Valid() && Bits(bitArray[..]) == {} && inserted == 0 && fresh(bitArray)
    {
      bitArray := new bv8[(size + 7) / 8](_ => 0);
      inserted := 0;
      ZeroesAreEmpty(bitArray[..]);
    }
  }

  /** Kirsch-Mitzenmacher indices from two 64-bit hashes of a value. */
  function KmIndices(one: nat, two: nat, size: nat, count: nat): (indices: seq<nat>)
    requires size > 0
    ensures |indices| == count && forall i :: i in indices ==> i < size
  {
    seq(count, k requires 0 <= k < count => if k == 0 then one % size else (one % size + k * (two % size)) % size)
  }

  lemma RemainderTwice(x: nat, m: nat)
    requires m > 0
    ensures x % m % m == x % m
  {
  }

  lemma StepRound(before: nat, two: nat, size: nat)
    requires size > 0
    ensures (before + two % size) % size == (before % size + two) % size
  {
    RemainderTwice(two, size);
    RemainderTwice(before, size);
    SumModulo(before, two % size, size);
    SumModulo(before % size, two, size);
  }

  lemma OneMoreStep(k: nat, step: nat)
    requires k > 0
    ensures k * step == (k - 1) * step + step
  {
  }

  /** The first index is the first hash, and each of the others is one constant step further round. */
  lemma IndicesStepRound(one: nat, two: nat, size: nat, count: nat, k: nat)
    requires size > 0 && k < count
    ensures var indices := KmIndices(one, two, size, count);
            && indices[0] == one % size
            && (k > 0 ==> indices[k] == (indices[k - 1] + two) % size)
  {
    RemainderTwice(one, size);
    if k > 0 {
      OneMoreStep(k, two % size);
      StepRound(one % size + (k - 1) * (two % size), two, size);
    }
  }

  // ------------------------------------------------------------ whole lives

  datatype Use<V> = Add(value: V) | Clear

  /** The positions set after a life of adds and clears. */
  ghost function BitsAfter<V>(derive: V -> seq<nat>, uses: seq<Use<V>>): set<nat> {
    if uses == [] then {}
    else
      var before, last := BitsAfter(derive, uses[..|uses| - 1]), uses[|uses| - 1];
      if last.Clear? then {} else before + Elements(derive(last.value))
  }

  /** Added, and not cleared since. */
  ghost predicate Kept<V>(uses: seq<Use<V>>, i: nat)
    requires i < |uses|
  {
    uses[i].Add? && forall j :: i < j < |uses| ==> uses[j].Add?
  }

  /** The filter holds exactly the positions of what was added since the last clear: nothing that was
      added is reported absent, and whatever is set was set by some value. */
  lemma {:induction false} HoldsExactlyWhatWasAdded<V>(derive: V -> seq<nat>, uses: seq<Use<V>>, p: nat)
    ensures p in BitsAfter(derive, uses) <==> exists i :: 0 <= i < |uses| && Kept(uses, i) && p in derive(uses[i].value)
    decreases |uses|
  {
    if uses != [] {
      var last := |uses| - 1;
      var before := uses[..last];
      HoldsExactlyWhatWasAdded(derive, before, p);
      if uses[last].Add? {
        assert Kept(uses, last);
        assert forall i :: 0 <= i < last && Kept(before, i) ==> Kept(uses, i);
        assert forall i :: 0 <= i < last && Kept(uses, i) ==> Kept(before, i);
      }
    }
  }

  lemma NoFalseNegatives<V>(derive: V -> seq<nat>, uses: seq<Use<V>>, i: nat)
    requires i < |uses| && Kept(uses, i)
    ensures Elements(derive(uses[i].value)) <= BitsAfter(derive, uses)
  {
    forall p | p in derive(uses[i].value) ensures p in BitsAfter(derive, uses) {
      HoldsExactlyWhatWasAdded(derive, uses, p);
    }
  }
}
