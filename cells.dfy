/**
 * TON cells as plain values, and the `Builder` of the `ton` client library
 * as a class whose `store*` methods append to its bit and reference lists.
 * A cell holds at most 1023 data bits and at most 4 references (section 3.1.1
 * of the TON Virtual Machine whitepaper).
 */
module Cells {
  import opened Wrappers
  import opened Bits

  const MaxBits: nat := 1023
  const MaxRefs: nat := 4

  datatype Cell = Cell(bits: seq<bool>, refs: seq<Cell>)

  /** The cell respects the per-cell bit and reference bounds. */
  predicate Fits(c: Cell)
  {
    |c.bits| <= MaxBits && |c.refs| <= MaxRefs
  }

  /** Why a `store*` call throws in the client library. */
  datatype CellError =
    | BitOverflow   // the cell would hold more than 1023 bits
    | RefOverflow   // the cell would hold more than 4 references
    | OutOfRange    // the value does not fit the declared width or scheme

  // ---------------------------------------------------------------------------
  // Addresses: `MsgAddressInt` in its `addr_std` form without anycast,
  //   addr_std$10 anycast:(Maybe Anycast) workchain_id:int8 address:bits256

  datatype Address = Address(workchain: int, hash: seq<bool>)

  const AddressLen: nat := 267

  predicate AddressFits(a: Address)
  {
    IntFits(a.workchain, 8) && |a.hash| == 256
  }

  function AddressBits(a: Address): (r: seq<bool>)
    requires AddressFits(a)
    ensures |r| == AddressLen
  {
    [true, false, false] + IntBits(a.workchain, 8) + a.hash
  }

  /** Reads back an address from exactly its 267 bits. */
  function ReadAddress(bits: seq<bool>): (r: Option<Address>)
    ensures r.Some? ==> AddressFits(r.value)
  {
    if |bits| == AddressLen && bits[..3] == [true, false, false]
    then Some(Address(IntValue(bits[3..11]), bits[11..]))
    else None
  }

  lemma AddressRoundTrip(a: Address)
    requires AddressFits(a)
    ensures ReadAddress(AddressBits(a)) == Some(a)
  {
    var bs := AddressBits(a);
    assert bs[3..11] == IntBits(a.workchain, 8);
    assert bs[11..] == a.hash;
    IntValueOfBits(a.workchain, 8);
  }

  // ---------------------------------------------------------------------------
  // Coins: `VarUInteger 16`, a 4-bit byte count followed by that many
  // big-endian bytes, using the fewest bytes that hold the amount.

  /** The fewest bytes that hold `v` (none for zero). */
  function ByteLen(v: nat): (n: nat)
    ensures n == 0 <==> v == 0
  {
    if v == 0 then 0 else 1 + ByteLen(v / 256)
  }

  /** `ByteLen(v)` bytes hold `v`, and one byte fewer would not. */
  lemma {:induction false} ByteLenBounds(v: nat)
    ensures v < Pow2(8 * ByteLen(v))
    ensures ByteLen(v) > 0 ==> Pow2(8 * (ByteLen(v) - 1)) <= v
  {
    if v > 0 {
      var k := ByteLen(v / 256);
      ByteLenBounds(v / 256);
      Pow2Add(8, 8 * k);
      Pow2Values();
      if k > 0 {
        Pow2Add(8, 8 * (k - 1));
      }
    }
  }

  /** The byte count must fit the 4-bit length field: at most 15 bytes. */
  predicate CoinsFit(v: int)
  {
    v >= 0 && ByteLen(v) <= 15
  }

  lemma CoinsFitRange(v: int)
    ensures CoinsFit(v) <==> 0 <= v < Pow2(120)
  {
    if v >= 0 {
      ByteLenBounds(v);
      var n := ByteLen(v);
      if n <= 15 {
        Pow2Monotone(8 * n, 120);
      } else {
        Pow2Monotone(120, 8 * (n - 1));
      }
    }
  }

  function CoinsBits(v: int): (r: seq<bool>)
    requires CoinsFit(v)
    ensures |r| == 4 + 8 * ByteLen(v) <= 124
  {
    ByteLenBounds(v);
    UintBits(ByteLen(v), 4) + UintBits(v, 8 * ByteLen(v))
  }

  /** Reads a coins amount at the head of `bits`: the amount and the bits consumed. */
  function ReadCoins(bits: seq<bool>): (r: Option<(nat, nat)>)
    ensures r.Some? ==> 4 <= r.value.1 <= |bits| && CoinsFit(r.value.0)
  {
    if |bits| < 4 then None
    else
      var len := UintValue(bits[..4]);
      if |bits| < 4 + 8 * len then None
      else
        var v := UintValue(bits[4..4 + 8 * len]);
        Pow2Values();
        ByteLenAtMost(v, len);
        Some((v, 4 + 8 * len))
  }

  /** A value held in `m` bytes needs at most `m` bytes. */
  lemma ByteLenAtMost(v: nat, m: nat)
    requires v < Pow2(8 * m)
    ensures ByteLen(v) <= m
  {
    ByteLenBounds(v);
    var n := ByteLen(v);
    if n > m {
      Pow2Monotone(8 * m, 8 * (n - 1));
    }
  }

  lemma CoinsRoundTrip(v: int, rest: seq<bool>)
    requires CoinsFit(v)
    ensures ReadCoins(CoinsBits(v) + rest) == Some((v, |CoinsBits(v)|))
  {
    var n := ByteLen(v);
    assert v < Pow2(8 * n) by { ByteLenBounds(v); }
    var len, amount := UintBits(n, 4), UintBits(v, 8 * n);
    var bs := CoinsBits(v) + rest;
    assert |bs| >= 4 + 8 * n && bs[..4] == len && bs[4..4 + 8 * n] == amount by {
      assert bs == len + amount + rest;
    }
    assert UintValue(len) == n by { UintValueOfBits(n, 4); }
    assert UintValue(amount) == v by { UintValueOfBits(v, 8 * n); }
  }

  // ---------------------------------------------------------------------------

  /**
   * The client library's cell builder. Each `store*` call appends to `bits`
   * or `refs`; a call that would break a bound or receives a value outside its
   * width fails and leaves the builder as it was.
   */
  class Builder {
    var bits: seq<bool>
    var refs: seq<Cell>

    ghost predicate Valid()
      reads this
    {
      |bits| <= MaxBits && |refs| <= MaxRefs
    }

    constructor ()
      ensures Valid() && bits == [] && refs == []
    {
      bits, refs := [], [];
    }

    method StoreBits(bs: seq<bool>) returns (o: Outcome<CellError>)
      requires Valid()
      modifies this
      ensures Valid() && refs == old(refs)
      ensures o == if |old(bits)| + |bs| <= MaxBits then Pass else Fail(BitOverflow)
      ensures bits == if o.Pass? then old(bits) + bs else old(bits)
    {
      if |bits| + |bs| <= MaxBits {
        bits := bits + bs;
        o := Pass;
      } else {
        o := Fail(BitOverflow);
      }
    }

    method StoreBit(b: bool) returns (o: Outcome<CellError>)
      requires Valid()
      modifies this
      ensures Valid() && refs == old(refs)
      ensures o == if |old(bits)| < MaxBits then Pass else Fail(BitOverflow)
      ensures bits == if o.Pass? then old(bits) + [b] else old(bits)
    {
      o := StoreBits([b]);
    }

    /** `storeUint(v, w)`: `v` as a `w`-bit big-endian unsigned integer. */
    method StoreUint(v: int, w: nat) returns (o: Outcome<CellError>)
      requires Valid()
      modifies this
      ensures Valid() && refs == old(refs)
      ensures !(0 <= v < Pow2(w)) ==> o == Fail(OutOfRange)
      ensures (0 <= v < Pow2(w)) ==> o == if |old(bits)| + w <= MaxBits then Pass else Fail(BitOverflow)
      ensures bits == if o.Pass? then old(bits) + UintBits(v, w) else old(bits)
    {
      if !(0 <= v < Pow2(w)) {
        return Fail(OutOfRange);
      }
      o := StoreBits(UintBits(v, w));
    }

    /** `storeInt(x, w)`: `x` as a `w`-bit two's-complement integer. */
    method StoreInt(x: int, w: nat) returns (o: Outcome<CellError>)
      requires Valid()
      modifies this
      ensures Valid() && refs == old(refs)
      ensures !IntFits(x, w) ==> o == Fail(OutOfRange)
      ensures IntFits(x, w) ==> o == if |old(bits)| + w <= MaxBits then Pass else Fail(BitOverflow)
      ensures bits == if o.Pass? then old(bits) + IntBits(x, w) else old(bits)
    {
      if !IntFits(x, w) {
        return Fail(OutOfRange);
      }
      o := StoreBits(IntBits(x, w));
    }

    /** `storeCoins(v)`: `v` in the `VarUInteger 16` scheme. */
    method StoreCoins(v: int) returns (o: Outcome<CellError>)
      requires Valid()
      modifies this
      ensures Valid() && refs == old(refs)
      ensures !CoinsFit(v) ==> o == Fail(OutOfRange)
      ensures CoinsFit(v) ==> o == if |old(bits)| + |CoinsBits(v)| <= MaxBits then Pass else Fail(BitOverflow)
      ensures bits == if o.Pass? then old(bits) + CoinsBits(v) else old(bits)
    {
      if !CoinsFit(v) {
        return Fail(OutOfRange);
      }
      o := StoreBits(CoinsBits(v));
    }

    /** `storeAddress(a)`: `a` as an `addr_std` address. */
    method StoreAddress(a: Address) returns (o: Outcome<CellError>)
      requires Valid()
      modifies this
      ensures Valid() && refs == old(refs)
      ensures !AddressFits(a) ==> o == Fail(OutOfRange)
      ensures AddressFits(a) ==> o == if |old(bits)| + AddressLen <= MaxBits then Pass else Fail(BitOverflow)
      ensures bits == if o.Pass? then old(bits) + AddressBits(a) else old(bits)
    {
      if !AddressFits(a) {
        return Fail(OutOfRange);
      }
      o := StoreBits(AddressBits(a));
    }

    /** `storeRef(c)`: `c` as the next child reference. */
    method StoreRef(c: Cell) returns (o: Outcome<CellError>)
      requires Valid()
      modifies this
      ensures Valid() && bits == old(bits)
      ensures o == if |old(refs)| < MaxRefs then Pass else Fail(RefOverflow)
      ensures refs == if o.Pass? then old(refs) + [c] else old(refs)
    {
      if |refs| < MaxRefs {
        refs := refs + [c];
        o := Pass;
      } else {
        o := Fail(RefOverflow);
      }
    }

    /** `storeCellCopy(c)`: the bits and the references of `c`, appended in place. */
    method StoreCellCopy(c: Cell) returns (o: Outcome<CellError>)
      requires Valid()
      modifies this
      ensures Valid()
      ensures o == if |old(bits)| + |c.bits| > MaxBits then Fail(BitOverflow)
                   else if |old(refs)| + |c.refs| > MaxRefs then Fail(RefOverflow)
                   else Pass
      ensures bits == if o.Pass? then old(bits) + c.bits else old(bits)
      ensures refs == if o.Pass? then old(refs) + c.refs else old(refs)
    {
      if |bits| + |c.bits| > MaxBits {
        o := Fail(BitOverflow);
      } else if |refs| + |c.refs| > MaxRefs {
        o := Fail(RefOverflow);
      } else {
        bits, refs := bits + c.bits, refs + c.refs;
        o := Pass;
      }
    }

    /** `endCell()`: the cell built so far. */
    method EndCell() returns (c: Cell)
      requires Valid()
      ensures Fits(c) && c.bits == bits && c.refs == refs
    {
      c := Cell(bits, refs);
    }
  }
}
