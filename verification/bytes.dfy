/**
  Byte-level helpers of the packet and container writers: little-endian
  integer encoders (`makeUint32`, `makeUint16`, `fillU32`, `fillU16`), the
  typed-array copy `appendData`, and the concatenation `makePacket`.

  A byte is a number from 0 to 255, as an element of a `Uint8Array` is.
  Integers written by the source are JavaScript numbers; `n & 0xff` and
  `(n >> 8) & 0xff` select base-256 digits of `n` modulo 2^32, which is what
  the encoders below compute, and `^` on two bytes is `Xor`.
*/
module Bytes {

  type byte = x: int | 0 <= x < 256

  const Two16: nat := 0x1_0000
  const Two32: nat := 0x1_0000_0000

  /** The low eight bits of a non-negative number, as JavaScript's `n & 0xff`. */
  function Low8(n: nat): (b: byte)
    ensures b == n % 256
  {
    n % 256
  }

  /* ---------- bitwise exclusive or ---------- */

  /** Bitwise exclusive or of two naturals, one binary digit at a time. */
  function XorBits(a: nat, b: nat): nat
    decreases a + b
  {
    if a == 0 && b == 0 then 0
    else 2 * XorBits(a / 2, b / 2) + XorBit(a % 2, b % 2)
  }

  /** Exclusive or of two binary digits. */
  function XorBit(x: nat, y: nat): nat
  {
    if x == y then 0 else 1
  }

  /** The low digit of `XorBits(a, b)` and the digits above it. */
  lemma XorBitsDigits(a: nat, b: nat)
    ensures XorBits(a, b) % 2 == XorBit(a % 2, b % 2)
    ensures XorBits(a, b) / 2 == XorBits(a / 2, b / 2)
  {
    if a == 0 && b == 0 {
    } else {
      DivModUnique(XorBits(a, b), 2, XorBits(a / 2, b / 2), XorBit(a % 2, b % 2));
    }
  }

  function Pow2(k: nat): (p: nat)
    ensures p >= 1
  {
    if k == 0 then 1 else 2 * Pow2(k - 1)
  }

  /** Exclusive or never sets a binary digit above the ones its operands use. */
  lemma {:induction false} XorBitsBelow(a: nat, b: nat, k: nat)
    requires a < Pow2(k) && b < Pow2(k)
    ensures XorBits(a, b) < Pow2(k)
    decreases k
  {
    if !(a == 0 && b == 0) {
      assert k > 0;
      XorBitsBelow(a / 2, b / 2, k - 1);
    }
  }

  lemma {:induction false} XorBitsZero(a: nat)
    ensures XorBits(a, 0) == a
    decreases a
  {
    if a != 0 {
      XorBitsZero(a / 2);
    }
  }

  /** JavaScript's `a ^ b` on two bytes; XOR with zero changes nothing. */
  function Xor(a: byte, b: byte): (r: byte)
    ensures b == 0 ==> r == a
  {
    XorBitsBelow(a, b, 8);
    XorBitsZero(a);
    XorBits(a, b)
  }

  lemma {:induction false} XorBitsInvolution(a: nat, k: nat)
    ensures XorBits(XorBits(a, k), k) == a
    decreases a + k
  {
    if k == 0 {
      XorBitsZero(a);
    } else {
      var x := XorBits(a, k);
      XorBitsDigits(a, k);
      XorBitsInvolution(a / 2, k / 2);
      assert XorBit(x % 2, k % 2) == a % 2;
      assert XorBits(x, k) == 2 * (a / 2) + a % 2;
    }
  }

  /** Binary digit `i` of `a`. */
  function Bit(a: nat, i: nat): nat
  {
    (a / Pow2(i)) % 2
  }

  /** Dividing by `2 * p` is halving, then dividing by `p`. */
  lemma HalveThenDivide(x: nat, p: nat)
    requires p > 0
    ensures x / (2 * p) == (x / 2) / p
  {
    var q, r := (x / 2) / p, (x / 2) % p;
    assert x == 2 * (x / 2) + x % 2;
    assert x / 2 == p * q + r;
    assert x == (2 * p) * q + (2 * r + x % 2);
    DivModUnique(x, 2 * p, q, 2 * r + x % 2);
  }

  /**
    `XorBits` is exclusive or digit by digit, the definition of JavaScript's
    `^`: every binary digit of the result is 1 exactly where the operands'
    digits differ.
  */
  lemma {:induction false} XorBitsBitwise(a: nat, b: nat, i: nat)
    ensures Bit(XorBits(a, b), i) == XorBit(Bit(a, i), Bit(b, i))
    decreases i
  {
    XorBitsDigits(a, b);
    if i > 0 {
      XorBitsBitwise(a / 2, b / 2, i - 1);
      HalveThenDivide(XorBits(a, b), Pow2(i - 1));
      HalveThenDivide(a, Pow2(i - 1));
      HalveThenDivide(b, Pow2(i - 1));
    }
  }

  /** XOR with the same key twice restores the byte: the striping is its own inverse. */
  lemma XorInvolution(a: byte, k: byte)
    ensures Xor(Xor(a, k), k) == a
  {
    XorBitsInvolution(a, k);
  }

  lemma {:induction false} XorBitsFixed(a: nat, k: nat)
    ensures XorBits(a, k) == a <==> k == 0
    decreases a + k
  {
    XorBitsZero(a);
    if XorBits(a, k) == a && k != 0 {
      XorBitsDigits(a, k);
      assert k % 2 == 0;
      XorBitsFixed(a / 2, k / 2);
      assert false;
    }
  }

  /** A key leaves a byte as it was exactly when the key is zero. */
  lemma XorFixed(x: byte, k: byte)
    ensures Xor(x, k) == x <==> k == 0
  {
    XorBitsFixed(x, k);
  }

  /* ---------- arithmetic helpers for base-256 digits ---------- */

  lemma MulAtLeast(m: int, a: int)
    requires m > 0 && a >= 1
    ensures m * a >= m
  {
    assert m * a == m * (a - 1) + m;
  }

  lemma DivModUnique(x: int, m: int, k: int, r: int)
    requires 0 < m && 0 <= r < m && x == m * k + r
    ensures x / m == k && x % m == r
  {
    var k', r' := x / m, x % m;
    assert x == m * k' + r';
    assert m * k' - m * k == r - r';
    assert m * (k' - k) == m * k' - m * k;
    if k' > k { MulAtLeast(m, k' - k); }
    else if k' < k { MulAtLeast(m, k - k'); }
  }

  lemma DivModStep(x: nat, d: int)
    requires d > 0
    ensures x % (256 * d) == x % 256 + 256 * ((x / 256) % d)
    ensures (x / 256) / d == x / (256 * d)
  {
    var q, r := x / 256, x % 256;
    var q2, r2 := q / d, q % d;
    assert x == 256 * q + r;
    assert q == d * q2 + r2;
    assert x == (256 * d) * q2 + (256 * r2 + r);
    DivModUnique(x, 256 * d, q2, 256 * r2 + r);
  }

  lemma FourDigits(n: nat)
    ensures n % 256 + 0x100 * ((n / 0x100) % 256) + 0x1_0000 * ((n / 0x1_0000) % 256)
            + 0x100_0000 * ((n / 0x100_0000) % 256) == n % Two32
  {
    DivModStep(n, 0x100_0000);
    DivModStep(n / 0x100, 0x1_0000);
    DivModStep(n / 0x1_0000, 0x100);
  }

  lemma SmallMod(n: nat)
    ensures n < Two32 ==> n % Two32 == n
  {
    if n < Two32 { DivModUnique(n, Two32, 0, n); }
  }

  lemma TwoDigits(n: nat)
    ensures n % 256 + 0x100 * ((n / 0x100) % 256) == n % Two16
  {
    DivModStep(n, 0x100);
  }

  /* ---------- little-endian readers (what a receiver does) ---------- */

  /** The unsigned value of four little-endian bytes. */
  function DecodeU32(b: seq<byte>): (n: nat)
    requires |b| == 4
    ensures n < Two32
  {
    b[0] as int + 0x100 * (b[1] as int) + 0x1_0000 * (b[2] as int) + 0x100_0000 * (b[3] as int)
  }

  /** The unsigned value of two little-endian bytes. */
  function DecodeU16(b: seq<byte>): (n: nat)
    requires |b| == 2
    ensures n < Two16
  {
    b[0] as int + 0x100 * (b[1] as int)
  }

  /* ---------- encoders ---------- */

  /** `makeUint32`: the four little-endian bytes of `n`, wrapping modulo 2^32. */
  function MakeUint32(n: nat): (r: seq<byte>)
    ensures |r| == 4
    ensures DecodeU32(r) == n % Two32
    ensures n < Two32 ==> DecodeU32(r) == n
  {
    FourDigits(n);
    SmallMod(n);
    [Low8(n), Low8(n / 0x100), Low8(n / 0x1_0000), Low8(n / 0x100_0000)]
  }

  /** `makeUint16`: the two little-endian bytes of `n`, wrapping modulo 2^16. */
  function MakeUint16(n: nat): (r: seq<byte>)
    ensures |r| == 2
    ensures DecodeU16(r) == n % Two16
  {
    TwoDigits(n);
    [Low8(n), Low8(n / 0x100)]
  }

  /** Each byte of a four-byte group is a base-256 digit of the value it decodes to. */
  lemma DecodeU32Digits(x: seq<byte>)
    requires |x| == 4
    ensures x[0] == DecodeU32(x) % 256
    ensures x[1] == (DecodeU32(x) / 256) % 256
    ensures x[2] == (DecodeU32(x) / 0x1_0000) % 256
    ensures x[3] == DecodeU32(x) / 0x100_0000
  {
    var d := DecodeU32(x);
    var h := x[1] as int + 0x100 * (x[2] as int) + 0x1_0000 * (x[3] as int);
    var g := x[2] as int + 0x100 * (x[3] as int);
    DivModUnique(d, 256, h, x[0]);
    DivModUnique(h, 256, g, x[1]);
    DivModUnique(g, 256, x[3], x[2]);
    DivModStep(d, 256);
    DivModStep(d, 0x1_0000);
    DivModStep(d / 256, 256);
  }

  /** Four bytes are determined by the value they decode to. */
  lemma DecodeU32Injective(x: seq<byte>, y: seq<byte>)
    requires |x| == 4 && |y| == 4
    ensures DecodeU32(x) == DecodeU32(y) <==> x == y
  {
    if DecodeU32(x) == DecodeU32(y) {
      DecodeU32Digits(x);
      DecodeU32Digits(y);
      assert x == [x[0], x[1], x[2], x[3]];
      assert y == [y[0], y[1], y[2], y[3]];
    }
  }

  /** Two numbers have the same 32-bit encoding exactly when they agree modulo 2^32. */
  lemma MakeUint32Injective(a: nat, b: nat)
    ensures MakeUint32(a) == MakeUint32(b) <==> a % Two32 == b % Two32
  {
    DecodeU32Injective(MakeUint32(a), MakeUint32(b));
  }

  /* ---------- copying into a fixed-size typed array ---------- */

  /**
    `appendData(dst, src, offset)` on a `Uint8Array`: byte `i` of `src` lands
    at `offset + i`; writes past the end of `dst` are dropped, and the array
    keeps its length.
  */
  function AppendData(dst: seq<byte>, src: seq<byte>, offset: nat): (r: seq<byte>)
    ensures |r| == |dst|
    ensures forall i | 0 <= i < |dst| ::
              r[i] == if offset <= i < offset + |src| then src[i - offset] else dst[i]
  {
    if offset >= |dst| then dst
    else
      var n := if |src| <= |dst| - offset then |src| else |dst| - offset;
      dst[..offset] + src[..n] + dst[offset + n..]
  }

  /** When `src` fits, the bytes up to its end are `dst`'s prefix followed by `src`, and the rest is untouched. */
  lemma AppendDataExtends(dst: seq<byte>, src: seq<byte>, offset: nat)
    requires offset + |src| <= |dst|
    ensures AppendData(dst, src, offset)[..offset + |src|] == dst[..offset] + src
    ensures AppendData(dst, src, offset)[offset + |src|..] == dst[offset + |src|..]
  {
    var r := AppendData(dst, src, offset);
    assert forall i | 0 <= i < offset + |src| :: r[i] == (dst[..offset] + src)[i];
  }

  /** `fillU32(arr, off, val)`: the four bytes at `off` read back as `val` modulo 2^32; nothing else changes. */
  function FillU32(arr: seq<byte>, off: nat, val: nat): (r: seq<byte>)
    ensures |r| == |arr|
    ensures off + 4 <= |arr| ==> DecodeU32(r[off..off + 4]) == val % Two32
    ensures forall i | 0 <= i < |arr| && !(off <= i < off + 4) :: r[i] == arr[i]
  {
    var r := AppendData(arr, MakeUint32(val), off);
    assert off + 4 <= |arr| ==> r[off..off + 4] == MakeUint32(val);
    r
  }

  /** `fillU16(arr, off, val)`: the two bytes at `off` read back as `val` modulo 2^16; nothing else changes. */
  function FillU16(arr: seq<byte>, off: nat, val: nat): (r: seq<byte>)
    ensures |r| == |arr|
    ensures off + 2 <= |arr| ==> DecodeU16(r[off..off + 2]) == val % Two16
    ensures forall i | 0 <= i < |arr| && !(off <= i < off + 2) :: r[i] == arr[i]
  {
    var r := AppendData(arr, MakeUint16(val), off);
    assert off + 2 <= |arr| ==> r[off..off + 2] == MakeUint16(val);
    r
  }

  /* ---------- concatenation ---------- */

  /** The concatenation of a list of sequences, in order. */
  function Flatten<T>(parts: seq<seq<T>>): seq<T>
  {
    if |parts| == 0 then [] else Flatten(parts[..|parts| - 1]) + parts[|parts| - 1]
  }

  lemma FlattenSnoc<T>(parts: seq<seq<T>>, x: seq<T>)
    ensures Flatten(parts + [x]) == Flatten(parts) + x
  {
    assert (parts + [x])[..|parts|] == parts;
  }

  lemma {:induction false} FlattenPrefixLength<T>(parts: seq<seq<T>>, i: nat)
    requires i <= |parts|
    ensures |Flatten(parts[..i])| <= |Flatten(parts)|
    decreases |parts|
  {
    if i < |parts| {
      var init := parts[..|parts| - 1];
      assert init[..i] == parts[..i];
      FlattenPrefixLength(init, i);
    } else {
      assert parts[..i] == parts;
    }
  }

  /** The concatenation of `f(x)` for each `x` of `xs`, in order. */
  function FlatMap<A, B>(xs: seq<A>, f: A -> seq<B>): seq<B>
  {
    if |xs| == 0 then [] else FlatMap(xs[..|xs| - 1], f) + f(xs[|xs| - 1])
  }

  lemma FlatMapSnoc<A, B>(xs: seq<A>, x: A, f: A -> seq<B>)
    ensures FlatMap(xs + [x], f) == FlatMap(xs, f) + f(x)
  {
    assert (xs + [x])[..|xs|] == xs;
  }

  lemma {:induction false} FlatMapAppend<A, B>(xs: seq<A>, ys: seq<A>, f: A -> seq<B>)
    ensures FlatMap(xs + ys, f) == FlatMap(xs, f) + FlatMap(ys, f)
    decreases |ys|
  {
    if |ys| == 0 {
      assert xs + ys == xs;
    } else {
      var init := ys[..|ys| - 1];
      FlatMapAppend(xs, init, f);
      assert xs + ys == (xs + init) + [ys[|ys| - 1]];
      FlatMapSnoc(xs + init, ys[|ys| - 1], f);
      FlatMapSnoc(init, ys[|ys| - 1], f);
      assert init + [ys[|ys| - 1]] == ys;
    }
  }

  function Zeros(n: nat): (r: seq<byte>)
    ensures |r| == n
  {
    seq(n, _ => 0)
  }

  /**
    `makePacket(parts...)`: sizes a zeroed array to the summed length, then
    copies each part in at a running offset. The result is the parts'
    concatenation.
  */
  method MakePacket(parts: seq<seq<byte>>) returns (pkt: seq<byte>)
    ensures pkt == Flatten(parts)
  {
    var len := 0;
    for i := 0 to |parts|
      invariant len == |Flatten(parts[..i])|
    {
      assert parts[..i + 1] == parts[..i] + [parts[i]];
      FlattenSnoc(parts[..i], parts[i]);
      len := len + |parts[i]|;
    }
    assert parts[..|parts|] == parts;
    pkt := Zeros(len);
    assert parts[..0] == [];
    var offset := 0;
    for i := 0 to |parts|
      invariant |pkt| == len
      invariant offset == |Flatten(parts[..i])| <= len
      invariant pkt[..offset] == Flatten(parts[..i])
    {
      assert parts[..i + 1] == parts[..i] + [parts[i]];
      FlattenSnoc(parts[..i], parts[i]);
      FlattenPrefixLength(parts, i + 1);
      AppendDataExtends(pkt, parts[i], offset);
      pkt := AppendData(pkt, parts[i], offset);
      offset := offset + |parts[i]|;
    }
    assert pkt[..offset] == pkt;
  }
}
