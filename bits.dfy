/**
 * Fixed-width integer encodings used by TON cells: big-endian unsigned
 * integers and two's-complement signed integers, most significant bit first.
 */
module Bits {

  function Pow2(n: nat): (r: nat)
    ensures r >= 1
  {
    if n == 0 then 1 else 2 * Pow2(n - 1)
  }

  lemma {:induction false} Pow2Add(a: nat, b: nat)
    ensures Pow2(a + b) == Pow2(a) * Pow2(b)
  {
    if b > 0 {
      Pow2Add(a, b - 1);
      assert Pow2(a + b) == 2 * Pow2(a + b - 1);
    }
  }

  lemma {:induction false} Pow2Monotone(a: nat, b: nat)
    requires a <= b
    ensures Pow2(a) <= Pow2(b)
  {
    if a < b {
      Pow2Monotone(a, b - 1);
    }
  }

  lemma Pow2Values()
    ensures Pow2(4) == 16 && Pow2(8) == 256
    ensures Pow2(31) == 0x8000_0000 && Pow2(32) == 0x1_0000_0000
  {
    Pow2Add(8, 8);
    Pow2Add(8, 7);
    Pow2Add(16, 15);
    Pow2Add(16, 16);
  }

  /** Big-endian encoding of `v` in exactly `w` bits. */
  function UintBits(v: nat, w: nat): (r: seq<bool>)
    requires v < Pow2(w)
    ensures |r| == w
  {
    if w == 0 then [] else UintBits(v / 2, w - 1) + [v % 2 == 1]
  }

  /** The unsigned integer a big-endian bit string stands for. */
  function UintValue(bits: seq<bool>): (v: nat)
    ensures v < Pow2(|bits|)
  {
    if |bits| == 0 then 0
    else 2 * UintValue(bits[..|bits| - 1]) + (if bits[|bits| - 1] then 1 else 0)
  }

  lemma {:induction false} UintValueOfBits(v: nat, w: nat)
    requires v < Pow2(w)
    ensures UintValue(UintBits(v, w)) == v
  {
    if w > 0 {
      var r := UintBits(v, w);
      assert r[..w - 1] == UintBits(v / 2, w - 1);
      UintValueOfBits(v / 2, w - 1);
    }
  }

  lemma {:induction false} UintBitsOfValue(bits: seq<bool>)
    ensures UintBits(UintValue(bits), |bits|) == bits
  {
    if |bits| > 0 {
      var init := bits[..|bits| - 1];
      UintBitsOfValue(init);
      assert bits == init + [bits[|bits| - 1]];
    }
  }

  /** `x` is representable as a `w`-bit two's-complement integer. */
  predicate IntFits(x: int, w: nat)
  {
    w >= 1 && -(Pow2(w - 1) as int) <= x < Pow2(w - 1)
  }

  /** Two's-complement encoding of `x` in exactly `w` bits. */
  function IntBits(x: int, w: nat): (r: seq<bool>)
    requires IntFits(x, w)
    ensures |r| == w
  {
    UintBits(if x >= 0 then x else x + Pow2(w), w)
  }

  /** The signed integer a two's-complement bit string stands for. */
  function IntValue(bits: seq<bool>): (x: int)
    requires |bits| >= 1
    ensures IntFits(x, |bits|)
  {
    var u := UintValue(bits);
    if u < Pow2(|bits| - 1) then u else u - Pow2(|bits|)
  }

  lemma IntValueOfBits(x: int, w: nat)
    requires IntFits(x, w)
    ensures IntValue(IntBits(x, w)) == x
  {
    UintValueOfBits(if x >= 0 then x else x + Pow2(w), w);
  }

  lemma IntBitsOfValue(bits: seq<bool>)
    requires |bits| >= 1
    ensures IntBits(IntValue(bits), |bits|) == bits
  {
    UintBitsOfValue(bits);
  }

  /** The leading bit of a two's-complement encoding is the sign. */
  lemma {:induction false} IntSignBit(x: int, w: nat)
    requires IntFits(x, w)
    ensures IntBits(x, w)[0] == (x < 0)
  {
    UintLeadingBit(if x >= 0 then x else x + Pow2(w), w);
  }

  lemma {:induction false} UintLeadingBit(v: nat, w: nat)
    requires w >= 1 && v < Pow2(w)
    ensures UintBits(v, w)[0] == (v >= Pow2(w - 1))
  {
    if w > 1 {
      UintLeadingBit(v / 2, w - 1);
    }
  }

  /** Cutting a five-part concatenation at the part boundaries gives the parts back. */
  lemma ConcatSlices<T>(a: seq<T>, b: seq<T>, c: seq<T>, d: seq<T>, e: seq<T>)
    ensures var s := a + b + c + d + e;
      var i, j, k := |a|, |a| + |b|, |a| + |b| + |c|;
      && s[..i] == a && s[i..j] == b && s[j..k] == c
      && s[k..k + |d|] == d && s[k..] == d + e && s[k + |d|..] == e
  {
    var s := a + b + c + d + e;
    assert s == a + (b + (c + (d + e)));
  }
}
