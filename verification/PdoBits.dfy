/**
 Bit strings and the two in-place byte primitives every PDO codec shares:
 copying a bit range between byte buffers, and sign extension.

 Bit `i` of a buffer is bit `i % 8` of byte `i / 8`, least significant first.
 The methods work on bytes with shifts and masks as the stack does; their
 contracts speak of the bit string of the buffer.
 */
module PdoBits {

  // ---- One byte ----

  function Mask(k: nat): bv8
    requires k < 8
  {
    if k == 0 then 0x01 else if k == 1 then 0x02 else if k == 2 then 0x04 else if k == 3 then 0x08
    else if k == 4 then 0x10 else if k == 5 then 0x20 else if k == 6 then 0x40 else 0x80
  }

  predicate Bit(b: bv8, k: nat)
    requires k < 8
  {
    b & Mask(k) != 0
  }

  function PutBit(b: bv8, k: nat, v: bool): bv8
    requires k < 8
  {
    if v then b | Mask(k) else b & !Mask(k)
  }

  lemma ShiftedBit(b: bv8, k: nat)
    requires k < 8
    ensures ((b >> k) & 1 != 0) == Bit(b, k)
  {
  }

  /** `1 << k` is the mask of bit `k`. */
  function Shifted(k: nat): (m: bv8)
    requires k < 8
    ensures m == Mask(k)
  {
    (1 as bv8) << k
  }

  /** The byte after `|= 1 << k` or `&= !(1 << k)`. */
  function BitStored(b: bv8, k: nat, value: bv8): (r: bv8)
    requires k < 8
    ensures r == PutBit(b, k, value != 0)
  {
    var m := Shifted(k);
    if value != 0 then b | m else b & !m
  }

  lemma MaskBits(k: nat, j: nat)
    requires k < 8 && j < 8
    ensures Mask(k) & Mask(j) == if j == k then Mask(k) else 0
    ensures Mask(k) != 0
  {
  }

  lemma MaskedUpdate(b: bv8, m: bv8, n: bv8)
    ensures m & n == 0 ==> (b | m) & n == b & n && (b & !m) & n == b & n
    ensures (b | m) & m == m && (b & !m) & m == 0
  {
  }

  lemma PutBitAt(b: bv8, k: nat, v: bool, j: nat)
    requires k < 8 && j < 8
    ensures Bit(PutBit(b, k, v), j) == if j == k then v else Bit(b, j)
  {
    MaskBits(k, j);
    MaskedUpdate(b, Mask(k), Mask(j));
  }

  lemma ByteByBits(a: bv8, b: bv8)
    requires forall k: nat :: k < 8 ==> Bit(a, k) == Bit(b, k)
    ensures a == b
  {
    assert Bit(a, 0) == Bit(b, 0) && Bit(a, 1) == Bit(b, 1) && Bit(a, 2) == Bit(b, 2) && Bit(a, 3) == Bit(b, 3);
    assert Bit(a, 4) == Bit(b, 4) && Bit(a, 5) == Bit(b, 5) && Bit(a, 6) == Bit(b, 6) && Bit(a, 7) == Bit(b, 7);
  }

  // ---- Buffers ----

  predicate BitAt(s: seq<bv8>, i: nat)
    requires i < 8 * |s|
  {
    Bit(s[i / 8], i % 8)
  }

  /** The bit string of a byte buffer. */
  function Bits(s: seq<bv8>): (r: seq<bool>)
    ensures |r| == 8 * |s|
  {
    seq(8 * |s|, i requires 0 <= i < 8 * |s| => BitAt(s, i))
  }

  function ToByte(b: seq<bool>): bv8
    requires |b| == 8
  {
    PutBit(PutBit(PutBit(PutBit(PutBit(PutBit(PutBit(PutBit(0, 0, b[0]), 1, b[1]), 2, b[2]), 3, b[3]), 4, b[4]), 5, b[5]), 6, b[6]), 7, b[7])
  }

  /** The buffer with a given bit string. */
  function FromBits(b: seq<bool>): (r: seq<bv8>)
    requires |b| % 8 == 0
    ensures |r| == |b| / 8
  {
    seq(|b| / 8, i requires 0 <= i < |b| / 8 => ToByte(b[8 * i..8 * i + 8]))
  }

  lemma ToByteAt(b: seq<bool>, j: nat)
    requires |b| == 8 && j < 8
    ensures Bit(ToByte(b), j) == b[j]
  {
    var x0 := PutBit(0, 0, b[0]);  PutBitAt(0, 0, b[0], j);
    var x1 := PutBit(x0, 1, b[1]); PutBitAt(x0, 1, b[1], j);
    var x2 := PutBit(x1, 2, b[2]); PutBitAt(x1, 2, b[2], j);
    var x3 := PutBit(x2, 3, b[3]); PutBitAt(x2, 3, b[3], j);
    var x4 := PutBit(x3, 4, b[4]); PutBitAt(x3, 4, b[4], j);
    var x5 := PutBit(x4, 5, b[5]); PutBitAt(x4, 5, b[5], j);
    var x6 := PutBit(x5, 6, b[6]); PutBitAt(x5, 6, b[6], j);
    PutBitAt(x6, 7, b[7], j);
  }

  /** `Bits` and `FromBits` are inverse, one direction. */
  lemma BitsOfFromBits(b: seq<bool>)
    requires |b| % 8 == 0
    ensures Bits(FromBits(b)) == b
  {
    hide Bit, ToByte;
    forall i | 0 <= i < |b|
      ensures Bits(FromBits(b))[i] == b[i]
    {
      ToByteAt(b[8 * (i / 8)..8 * (i / 8) + 8], i % 8);
    }
  }

  /** A buffer is determined by its bits. */
  lemma BitsInjective(s: seq<bv8>, t: seq<bv8>)
    requires Bits(s) == Bits(t)
    ensures s == t
  {
    hide Bit;
    forall n | 0 <= n < |s|
      ensures s[n] == t[n]
    {
      forall k: nat | k < 8
        ensures Bit(s[n], k) == Bit(t[n], k)
      {
        assert Bits(s)[8 * n + k] == Bits(t)[8 * n + k];
      }
      ByteByBits(s[n], t[n]);
    }
  }

  /** `Bits` and `FromBits` are inverse, the other direction. */
  lemma FromBitsOfBits(s: seq<bv8>)
    ensures FromBits(Bits(s)) == s
  {
    hide Bits, FromBits;
    BitsOfFromBits(Bits(s));
    BitsInjective(FromBits(Bits(s)), s);
  }

  lemma BitsOfSlice(s: seq<bv8>, lo: nat, hi: nat)
    requires lo <= hi <= |s|
    ensures Bits(s[lo..hi]) == Bits(s)[8 * lo..8 * hi]
  {
    hide Bit;
    forall i | 0 <= i < 8 * (hi - lo)
      ensures Bits(s[lo..hi])[i] == Bits(s)[8 * lo + i]
    {
      assert (8 * lo + i) / 8 == lo + i / 8 && (8 * lo + i) % 8 == i % 8;
    }
  }

  lemma BitsOfZeros(s: seq<bv8>)
    requires forall i :: 0 <= i < |s| ==> s[i] == 0
    ensures Bits(s) == Zeros(8 * |s|)
  {
  }

  function Zeros(n: nat): seq<bool> {
    seq(n, _ => false)
  }

  function Ones(n: nat): seq<bool> {
    seq(n, _ => true)
  }

  /** `dst` with the bits from `at` on replaced by `part`. */
  function Splice(dst: seq<bool>, at: nat, part: seq<bool>): (r: seq<bool>)
    requires at + |part| <= |dst|
    ensures |r| == |dst|
  {
    dst[..at] + part + dst[at + |part|..]
  }

  // ---- copy_pdo_bits ----

  lemma ByteWriteBits(before: seq<bv8>, after: seq<bv8>, i: nat, v: bool)
    requires |before| == |after| && i < 8 * |before|
    requires after == before[i / 8 := PutBit(before[i / 8], i % 8, v)]
    ensures Bits(after) == Bits(before)[i := v]
  {
    hide Bit, PutBit;
    forall j | 0 <= j < 8 * |before|
      ensures Bits(after)[j] == Bits(before)[i := v][j]
    {
      PutBitAt(before[i / 8], i % 8, v, j % 8);
    }
  }

  lemma SpliceGrows(dst: seq<bool>, at: nat, src: seq<bool>, lo: nat, n: nat)
    requires lo + n < |src| && at + n < |dst|
    ensures Splice(dst, at, src[lo..lo + n])[at + n := src[lo + n]] == Splice(dst, at, src[lo..lo + n + 1])
  {
  }

  lemma BitsOfConcat(s: seq<bv8>, t: seq<bv8>)
    ensures Bits(s + t) == Bits(s) + Bits(t)
  {
    hide Bit;
    forall i | 0 <= i < 8 * |s + t|
      ensures Bits(s + t)[i] == (Bits(s) + Bits(t))[i]
    {
      if i >= 8 * |s| {
        assert (i - 8 * |s|) / 8 == i / 8 - |s| && (i - 8 * |s|) % 8 == i % 8;
      }
    }
  }

  lemma ByteCopyBits(src: seq<bv8>, s: nat, before: seq<bv8>, d: nat, n: nat)
    requires s + n <= |src| && d + n <= |before|
    ensures Bits(before[..d] + src[s..s + n] + before[d + n..])
         == Splice(Bits(before), 8 * d, Bits(src)[8 * s..8 * (s + n)])
  {
    hide Bits;
    BitsOfConcat(before[..d] + src[s..s + n], before[d + n..]);
    BitsOfConcat(before[..d], src[s..s + n]);
    BitsOfSlice(before, 0, d);
    BitsOfSlice(before, d + n, |before|);
    BitsOfSlice(src, s, s + n);
    assert before[0..d] == before[..d] && before[d + n..|before|] == before[d + n..];
    assert Bits(before)[0..8 * d] == Bits(before)[..8 * d];
    assert Bits(before)[8 * (d + n)..8 * |before|] == Bits(before)[8 * d + 8 * n..];
  }

  method ReadBit(src: seq<bv8>, i: nat) returns (value: bv8)
    requires i < 8 * |src|
    ensures (value != 0) == Bits(src)[i]
  {
    ShiftedBit(src[i / 8], i % 8);
    value := (src[i / 8] >> (i % 8)) & 1;
  }

  method WriteBit(dst: array<bv8>, i: nat, value: bv8)
    requires i < 8 * dst.Length
    modifies dst
    ensures Bits(dst[..]) == old(Bits(dst[..]))[i := value != 0]
    ensures forall j :: 0 <= j < dst.Length && j != i / 8 ==> dst[j] == old(dst[j])
  {
    hide Bits, PutBit;
    ghost var before := dst[..];
    dst[i / 8] := BitStored(dst[i / 8], i % 8, value);
    ByteWriteBits(before, dst[..], i, value != 0);
  }

  method CopyWholeBytes(src: seq<bv8>, s: nat, dst: array<bv8>, d: nat, n: nat)
    requires s + n <= |src|
    requires d + n <= dst.Length
    modifies dst
    ensures Bits(dst[..]) == Splice(old(Bits(dst[..])), 8 * d, Bits(src)[8 * s..8 * (s + n)])
  {
    hide Bits;
    ghost var was := dst[..];
    forall i | 0 <= i < n {
      dst[d + i] := src[s + i];
    }
    assert dst[..] == was[..d] + src[s..s + n] + was[d + n..];
    ByteCopyBits(src, s, was, d, n);
  }

  method CopyBitwise(src: seq<bv8>, srcOff: nat, dst: array<bv8>, dstOff: nat, n: nat)
    requires srcOff + n <= 8 * |src|
    requires dstOff + n <= 8 * dst.Length
    modifies dst
    ensures Bits(dst[..]) == Splice(old(Bits(dst[..])), dstOff, Bits(src)[srcOff..srcOff + n])
  {
    hide Bits;
    ghost var was := Bits(dst[..]);
    for bit := 0 to n
      invariant Bits(dst[..]) == Splice(was, dstOff, Bits(src)[srcOff..srcOff + bit])
    {
      var value := ReadBit(src, srcOff + bit);
      WriteBit(dst, dstOff + bit, value);
      SpliceGrows(was, dstOff, Bits(src), srcOff, bit);
    }
  }

  /**
   Copies `n` bits between byte buffers: whole bytes when everything is byte
   aligned, bit by bit otherwise. Both paths splice the source bits into the
   destination and touch nothing else.
   */
  method CopyPdoBits(src: seq<bv8>, srcOff: nat, dst: array<bv8>, dstOff: nat, n: nat)
    requires srcOff + n <= 8 * |src|
    requires dstOff + n <= 8 * dst.Length
    modifies dst
    ensures Bits(dst[..]) == Splice(old(Bits(dst[..])), dstOff, Bits(src)[srcOff..srcOff + n])
  {
    hide Bits, Splice;
    if srcOff % 8 == 0 && dstOff % 8 == 0 && n % 8 == 0 {
      var s, d, len := srcOff / 8, dstOff / 8, n / 8;
      assert srcOff == 8 * s && dstOff == 8 * d && srcOff + n == 8 * (s + len);
      CopyWholeBytes(src, s, dst, d, len);
    } else {
      CopyBitwise(src, srcOff, dst, dstOff, n);
    }
  }

  // ---- sign_extend_pdo_bits ----

  /** `value` with every bit from `bits` on set when bit `bits - 1` is. */
  function SignExtended(value: seq<bool>, bits: nat): (r: seq<bool>)
    ensures |r| == |value|
  {
    if bits == 0 || bits >= |value| || !value[bits - 1] then value
    else value[..bits] + Ones(|value| - bits)
  }

  /** Sign-extends the first `len` bytes of `value` from their low `bits` bits. */
  method SignExtendPdoBits(value: array<bv8>, len: nat, bits: nat)
    requires len <= value.Length
    modifies value
    ensures Bits(value[..len]) == SignExtended(old(Bits(value[..len])), bits)
    ensures value[len..] == old(value[len..])
  {
    hide Bits;
    if bits == 0 || bits >= len * 8 {
      return;
    }
    ghost var was := value[..];
    var sign := ReadBit(value[..], bits - 1);
    BitsOfSlice(was, 0, len);
    if sign == 0 {
      return;
    }
    for bit := bits to len * 8
      invariant Bits(value[..]) == Bits(was)[..bits] + Ones(bit - bits) + Bits(was)[bit..]
      invariant value[len..] == was[len..]
    {
      WriteBit(value, bit, 1);
      assert value[len..] == was[len..];
      assert Ones(bit + 1 - bits) == Ones(bit - bits) + [true];
    }
    BitsOfSlice(value[..], 0, len);
  }
}
