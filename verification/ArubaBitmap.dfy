/** Port lists of the Q-BRIDGE-MIB (PortList, section 5 of RFC 4363): one bit per bridge port, the most significant bit
    of the first byte being port 1. */
module ArubaBitmap {

  type Bits = seq<bv8>

  /** `portBit(p).byteIdx` */
  function ByteIndex(p: nat): nat
    requires p >= 1
  {
    (p - 1) / 8
  }

  /** `0x80 >> k` */
  function Shifted(k: nat): bv8 {
    if k == 0 then 0x80 else Shifted(k - 1) >> 1
  }

  /** `portBit(p).mask` */
  function Mask(p: nat): bv8
    requires p >= 1
  {
    Shifted((p - 1) % 8)
  }

  /** The byte at an index; past the end it counts as zero. */
  function ByteAt(b: Bits, i: nat): bv8 {
    if i < |b| then b[i] else 0
  }

  /** Whether a port is in the list. */
  predicate Has(b: Bits, p: nat)
    requires p >= 1
  {
    ByteAt(b, ByteIndex(p)) & Mask(p) != 0
  }

  function Longer(a: nat, b: nat): nat {
    if a < b then b else a
  }

  function Padded(b: Bits, n: nat): (r: Bits) {
    seq(n, i requires 0 <= i < n => ByteAt(b, i))
  }

  function WithBit(byte: bv8, mask: bv8, on: bool): bv8 {
    if on then byte | mask else byte & !mask
  }

  function Put(b: Bits, p: nat, on: bool): (r: Bits)
    requires p >= 1
    ensures |r| == Longer(|b|, ByteIndex(p) + 1)
  {
    var out := Padded(b, Longer(|b|, ByteIndex(p) + 1));
    out[ByteIndex(p) := WithBit(out[ByteIndex(p)], Mask(p), on)]
  }

  /** `Buffer.alloc(n)` and `buf.copy(out)` */
  method Copied(buf: array<bv8>, n: nat) returns (out: array<bv8>)
    requires buf.Length <= n
    ensures fresh(out) && out[..] == Padded(buf[..], n)
  {
    out := new bv8[n](_ => 0);
    forall i | 0 <= i < buf.Length {
      out[i] := buf[i];
    }
  }

  /** `|= mask` or `&= ~mask` */
  method Masked(byte: bv8, mask: bv8, on: bool) returns (r: bv8)
    ensures r == WithBit(byte, mask, on)
  {
    r := byte;
    if on {
      r := r | mask;
    } else {
      r := r & !mask;
    }
  }

  method CopyWithByte(buf: array<bv8>, n: nat, byteIdx: nat, mask: bv8, on: bool) returns (out: array<bv8>)
    requires buf.Length <= n && byteIdx < n
    ensures var was := Padded(buf[..], n);
            fresh(out) && out[..] == was[byteIdx := WithBit(was[byteIdx], mask, on)]
  {
    out := Copied(buf, n);
    ghost var was := out[..];
    var byte := Masked(out[byteIdx], mask, on);
    out[byteIdx] := byte;
    assert out[..] == was[byteIdx := byte];
  }

  /** `bitmapSet`: a changed copy; the buffer it was given stays as it is. */
  method BitmapSet(buf: array<bv8>, p: nat, on: bool) returns (out: array<bv8>)
    requires p >= 1
    ensures fresh(out) && out[..] == Put(buf[..], p, on)
  {
    var byteIdx, mask := ByteIndex(p), Mask(p);
    out := CopyWithByte(buf, Longer(buf.Length, byteIdx + 1), byteIdx, mask, on);
  }

  // ---------------------------------------------------------------- which bits change

  /** The eight masks, each a single bit. */
  lemma MaskTable()
    ensures Shifted(0) == 0x80 && Shifted(1) == 0x40 && Shifted(2) == 0x20 && Shifted(3) == 0x10
    ensures Shifted(4) == 0x08 && Shifted(5) == 0x04 && Shifted(6) == 0x02 && Shifted(7) == 0x01
  {
    assert Shifted(2) == 0x20;
    assert Shifted(4) == 0x08;
    assert Shifted(6) == 0x02;
  }

  lemma MasksDisjoint(p: nat, q: nat)
    requires p >= 1 && q >= 1 && p != q && ByteIndex(p) == ByteIndex(q)
    ensures Mask(p) & Mask(q) == 0
  {
    MaskTable();
    assert (p - 1) % 8 != (q - 1) % 8;
  }

  lemma MaskNonZero(p: nat)
    requires p >= 1
    ensures Mask(p) != 0
  {
    MaskTable();
  }

  lemma OrBit(b: bv8, m: bv8, n: bv8)
    ensures (b | m) & m == m
    ensures m & n == 0 ==> (b | m) & n == b & n
  {
  }

  lemma ClearBit(b: bv8, m: bv8, n: bv8)
    ensures (b & !m) & m == 0
    ensures m & n == 0 ==> (b & !m) & n == b & n
  {
  }

  lemma ByteAlgebra(b: bv8, m: bv8, n: bv8, on: bool)
    ensures WithBit(b, m, on) & m == if on then m else 0
    ensures m & n == 0 ==> WithBit(b, m, on) & n == b & n
  {
    if on {
      OrBit(b, m, n);
    } else {
      ClearBit(b, m, n);
    }
  }

  lemma PutByte(b: Bits, p: nat, on: bool, i: nat)
    requires p >= 1
    ensures ByteAt(Put(b, p, on), i) ==
            if i == ByteIndex(p) then WithBit(ByteAt(b, i), Mask(p), on) else ByteAt(b, i)
  {
  }

  lemma PutNeighbour(b: Bits, p: nat, on: bool, q: nat)
    requires p >= 1 && q >= 1 && q != p && ByteIndex(q) == ByteIndex(p)
    ensures Has(Put(b, p, on), q) == Has(b, q)
  {
    PutByte(b, p, on, ByteIndex(q));
    MasksDisjoint(p, q);
    ByteAlgebra(ByteAt(b, ByteIndex(p)), Mask(p), Mask(q), on);
  }

  /** Exactly the one port's bit becomes `on`; every other port's bit stays, past the old end too. */
  lemma PutChangesOneBit(b: Bits, p: nat, on: bool, q: nat)
    requires p >= 1 && q >= 1
    ensures Has(Put(b, p, on), q) == if q == p then on else Has(b, q)
  {
    PutByte(b, p, on, ByteIndex(q));
    if q == p {
      MaskNonZero(p);
      ByteAlgebra(ByteAt(b, ByteIndex(p)), Mask(p), Mask(p), on);
    } else if ByteIndex(q) == ByteIndex(p) {
      PutNeighbour(b, p, on, q);
    }
  }

  predicate SameBit(x: bv8, y: bv8, k: nat) {
    x & Shifted(k) != 0 <==> y & Shifted(k) != 0
  }

  lemma SingleBits(x: bv8, y: bv8)
    requires x & 0x80 != 0 <==> y & 0x80 != 0
    requires x & 0x40 != 0 <==> y & 0x40 != 0
    requires x & 0x20 != 0 <==> y & 0x20 != 0
    requires x & 0x10 != 0 <==> y & 0x10 != 0
    requires x & 0x08 != 0 <==> y & 0x08 != 0
    requires x & 0x04 != 0 <==> y & 0x04 != 0
    requires x & 0x02 != 0 <==> y & 0x02 != 0
    requires x & 0x01 != 0 <==> y & 0x01 != 0
    ensures x == y
  {
  }

  lemma BitsOfByte(x: bv8, y: bv8)
    requires forall k: nat :: k < 8 ==> SameBit(x, y, k)
    ensures x == y
  {
    MaskTable();
    assert SameBit(x, y, 0) && SameBit(x, y, 1) && SameBit(x, y, 2) && SameBit(x, y, 3);
    assert SameBit(x, y, 4) && SameBit(x, y, 5) && SameBit(x, y, 6) && SameBit(x, y, 7);
    SingleBits(x, y);
  }

  /** A list is determined by its length and the ports in it. */
  lemma PortsDetermine(b: Bits, c: Bits)
    requires |b| == |c| && forall q: nat :: q >= 1 ==> Has(b, q) == Has(c, q)
    ensures b == c
  {
    forall i | 0 <= i < |b|
      ensures b[i] == c[i]
    {
      forall k: nat | k < 8
        ensures SameBit(b[i], c[i], k)
      {
        var q := 8 * i + k + 1;
        assert ByteIndex(q) == i && (q - 1) % 8 == k;
        assert Has(b, q) == Has(c, q);
      }
      BitsOfByte(b[i], c[i]);
    }
  }

  /** A second write to the same port undoes the first, byte for byte. */
  lemma PutTwice(b: Bits, p: nat, was: bool, on: bool)
    requires p >= 1
    ensures Put(Put(b, p, was), p, on) == Put(b, p, on)
  {
    forall q: nat | q >= 1
      ensures Has(Put(Put(b, p, was), p, on), q) == Has(Put(b, p, on), q)
    {
      PutChangesOneBit(b, p, was, q);
      PutChangesOneBit(b, p, on, q);
      PutChangesOneBit(Put(b, p, was), p, on, q);
    }
    PortsDetermine(Put(Put(b, p, was), p, on), Put(b, p, on));
  }

  /** Writes to different ports commute, byte for byte. */
  lemma PutsCommute(b: Bits, p: nat, x: bool, q: nat, y: bool)
    requires p >= 1 && q >= 1 && p != q
    ensures Put(Put(b, p, x), q, y) == Put(Put(b, q, y), p, x)
  {
    forall r: nat | r >= 1
      ensures Has(Put(Put(b, p, x), q, y), r) == Has(Put(Put(b, q, y), p, x), r)
    {
      PutChangesOneBit(b, p, x, r);
      PutChangesOneBit(b, q, y, r);
      PutChangesOneBit(Put(b, p, x), q, y, r);
      PutChangesOneBit(Put(b, q, y), p, x, r);
    }
    PortsDetermine(Put(Put(b, p, x), q, y), Put(Put(b, q, y), p, x));
  }
}
