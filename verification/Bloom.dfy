/** A Bloom filter over trigram keys: it may admit a key it never saw, and never turns away one it did. */
module Bloom {

  /** The two hashes of a key that every probe is made from. */
  type Mix = int -> (int, int)

  const WRAP := 0x1_0000_0000_0000_0000
  const HALF := 0x8000_0000_0000_0000

  function TriKey(a: char, b: char, c: char): int {
    a as int * 0x1_0000_0000 + b as int * 0x1_0000 + c as int
  }

  /** The i-th probe, before it is brought in range: h1 + i * h2, stepped, in 64 bits. */
  function Probe(mix: Mix, key: int, i: nat): int {
    if i == 0 then mix(key).0 % WRAP else (Probe(mix, key, i - 1) + mix(key).1) % WRAP
  }

  /** A probe's bit: the sign bit goes, the rest is taken modulo the number of bits. */
  function Bit(h: int, bitCount: nat): (bit: nat)
    requires bitCount > 0
    ensures bit < bitCount
  {
    h % HALF % bitCount
  }

  function Mask(bit: nat): bv8 {
    match bit % 8
    case 0 => 1 case 1 => 2 case 2 => 4 case 3 => 8
    case 4 => 16 case 5 => 32 case 6 => 64 case _ => 128
  }

  predicate Has(byte: bv8, bit: nat) { byte & Mask(bit) != 0 }

  function With(byte: bv8, bit: nat): bv8 { byte | Mask(bit) }

  predicate BitSet(bits: seq<bv8>, bit: nat) {
    bit / 8 < |bits| && Has(bits[bit / 8], bit)
  }

  /** Is every one of a key's probes set? */
  predicate Admits(mix: Mix, bits: seq<bv8>, k: nat, key: int)
    requires |bits| > 0
  {
    forall i :: 0 <= i < k ==> BitSet(bits, Bit(Probe(mix, key, i), |bits| * 8))
  }

  lemma MasksApart(a: nat, b: nat)
    ensures Mask(a) & Mask(b) != 0 <==> a % 8 == b % 8
  {}

  /** Setting a bit sets that bit, and no other. */
  lemma SetsOne(a: bv8, bit: nat, b: nat)
    ensures Has(With(a, bit), b) <==> Has(a, b) || bit % 8 == b % 8
  {
    MasksApart(bit, b);
    OrSplits(a, Mask(bit), Mask(b));
  }

  function WithBit(bits: seq<bv8>, bit: nat): seq<bv8>
    requires bit / 8 < |bits|
  {
    bits[bit / 8 := With(bits[bit / 8], bit)]
  }

  lemma SetInSeq(bits: seq<bv8>, bit: nat, b: nat)
    requires bit / 8 < |bits|
    ensures BitSet(WithBit(bits, bit), b) <==> BitSet(bits, b) || b == bit
  {
    hide With, Has;
    SameBit(bit, b);
    if b / 8 == bit / 8 { SetsOne(bits[bit / 8], bit, b); }
  }

  lemma SameBit(bit: nat, b: nat)
    ensures b == bit <==> b / 8 == bit / 8 && b % 8 == bit % 8
  {}

  lemma OrSplits(a: bv8, m: bv8, n: bv8)
    ensures (a | m) & n != 0 <==> a & n != 0 || m & n != 0
  {}

  lemma Multiples(a: int, b: int, c: int)
    ensures (a % WRAP + b) % WRAP == (a + b) % WRAP
  {}

  /** The probes are h1, h1 + h2, h1 + 2 * h2, and so on, in 64 bits. */
  lemma {:induction false} ProbeIs(mix: Mix, key: int, i: nat)
    ensures Probe(mix, key, i) == (mix(key).0 + i * mix(key).1) % WRAP
  {
    var (h1, h2) := mix(key);
    if i > 0 {
      ProbeIs(mix, key, i - 1);
      Multiples(h1 + (i - 1) * h2, h2, 0);
      assert h1 + (i - 1) * h2 + h2 == h1 + i * h2;
    }
  }

  /** Three characters of the basic plane have a key of their own. */
  lemma TriKeyApart(a: char, b: char, c: char, x: char, y: char, z: char)
    requires b < '\U{10000}' && c < '\U{10000}' && y < '\U{10000}' && z < '\U{10000}'
    ensures TriKey(a, b, c) == TriKey(x, y, z) ==> a == x && b == y && c == z
  {}

  /** Is it one of a key's bits? */
  predicate IsOfKey(mix: Mix, bitCount: nat, k: nat, key: int, b: nat)
    requires bitCount > 0
  {
    exists i :: 0 <= i < k && Bit(Probe(mix, key, i), bitCount) == b
  }

  lemma NoProbe(mix: Mix, bitCount: nat, key: int)
    requires bitCount > 0
    ensures forall b: nat :: !IsOfKey(mix, bitCount, 0, key, b)
  {}

  lemma OneProbeMore(mix: Mix, bitCount: nat, i: nat, key: int)
    requires bitCount > 0
    ensures forall b: nat :: IsOfKey(mix, bitCount, i + 1, key, b) <==>
              IsOfKey(mix, bitCount, i, key, b) || b == Bit(Probe(mix, key, i), bitCount)
  {
    hide Bit, Probe;
    forall b: nat
      ensures IsOfKey(mix, bitCount, i + 1, key, b) <==>
              IsOfKey(mix, bitCount, i, key, b) || b == Bit(Probe(mix, key, i), bitCount)
    {
      if IsOfKey(mix, bitCount, i + 1, key, b) {
        var j :| 0 <= j < i + 1 && Bit(Probe(mix, key, j), bitCount) == b;
        assert j < i ==> IsOfKey(mix, bitCount, i, key, b);
      }
      if IsOfKey(mix, bitCount, i, key, b) {
        var j :| 0 <= j < i && Bit(Probe(mix, key, j), bitCount) == b;
        assert IsOfKey(mix, bitCount, i + 1, key, b);
      }
    }
  }

  lemma ProbesAreOfKey(mix: Mix, bitCount: nat, k: nat, key: int)
    requires bitCount > 0
    ensures forall i: nat {:trigger Probe(mix, key, i)} :: i < k ==>
              IsOfKey(mix, bitCount, k, key, Bit(Probe(mix, key, i), bitCount))
  {
    hide Bit, Probe;
  }

  class BloomFilter {
    const bits: array<bv8>
    const k: nat
    const mix: Mix

    constructor (mix: Mix, bytes: nat, k: nat)
      requires bytes > 0
      ensures fresh(bits) && bits.Length == bytes && this.k == k && this.mix == mix
      ensures forall b: nat :: !BitSet(bits[..], b)
    {
      bits := new bv8[bytes](_ => 0);
      this.k, this.mix := k, mix;
    }

    /** Backed by bits read from a sidecar. */
    constructor Of(mix: Mix, from: seq<bv8>, k: nat)
      requires |from| > 0
      ensures fresh(bits) && bits[..] == from && this.k == k && this.mix == mix
    {
      bits := new bv8[|from|](i requires 0 <= i < |from| => from[i]);
      this.k, this.mix := k, mix;
    }

    method SetBit(bit: nat)
      requires bit < bits.Length * 8
      modifies bits
      ensures forall b: nat :: BitSet(bits[..], b) <==> old(BitSet(bits[..], b)) || b == bit
    {
      hide With, Has;
      bits[bit / 8] := With(bits[bit / 8], bit);
      assert bits[..] == WithBit(old(bits[..]), bit);
      forall b: nat ensures BitSet(bits[..], b) <==> old(BitSet(bits[..], b)) || b == bit {
        SetInSeq(old(bits[..]), bit, b);
      }
    }

    /** Afterwards the key is admitted; the bits that are set are those that were, and the key's. */
    method Add(key: int)
      requires bits.Length > 0
      modifies bits
      ensures Admits(mix, bits[..], k, key)
      ensures forall b: nat :: BitSet(bits[..], b) <==>
                old(BitSet(bits[..], b)) || IsOfKey(mix, bits.Length * 8, k, key, b)
    {
      hide Mask, BitSet, Bit, IsOfKey;
      NoProbe(mix, bits.Length * 8, key);
      var h := mix(key).0 % WRAP;
      for i := 0 to k
        invariant h == Probe(mix, key, i)
        invariant forall b: nat :: BitSet(bits[..], b) <==>
                    old(BitSet(bits[..], b)) || IsOfKey(mix, bits.Length * 8, i, key, b)
      {
        SetBit(Bit(h, bits.Length * 8));
        OneProbeMore(mix, bits.Length * 8, i, key);
        h := (h + mix(key).1) % WRAP;
      }
      ProbesAreOfKey(mix, bits.Length * 8, k, key);
    }

    method MayContain(key: int) returns (may: bool)
      requires bits.Length > 0
      ensures may <==> Admits(mix, bits[..], k, key)
    {
      var h := mix(key).0 % WRAP;
      for i := 0 to k
        invariant h == Probe(mix, key, i)
        invariant forall j :: 0 <= j < i ==> BitSet(bits[..], Bit(Probe(mix, key, j), bits.Length * 8))
      {
        var bit := Bit(h, bits.Length * 8);
        if !Has(bits[bit / 8], bit) { return false; }
        h := (h + mix(key).1) % WRAP;
      }
      return true;
    }
  }
}
