/**
  The typed encodings of ByteArray as functions on bytes: fixed width in both byte orders,
  base-128 varints, zigzag and length-prefixed strings.
*/
module Codec {
  import opened ByteArray

  datatype Order = Little | Big

  function Pow2(n: nat): (p: nat)
    ensures p > 0
  {
    if n == 0 then 1 else 2 * Pow2(n - 1)
  }

  lemma {:induction false} Pow2Add(a: nat, b: nat)
    ensures Pow2(a + b) == Pow2(a) * Pow2(b)
  {
    if a > 0 {
      Pow2Add(a - 1, b);
      assert Pow2(a) * Pow2(b) == 2 * (Pow2(a - 1) * Pow2(b));
    }
  }

  lemma {:induction false} Pow2Monotone(a: nat, b: nat)
    requires a <= b
    ensures Pow2(a) <= Pow2(b)
  {
    if a < b {
      Pow2Monotone(a, b - 1);
    }
  }

  lemma Pow2Values()
    ensures Pow2(7) == 128 && Pow2(8) == 256 && Pow2(16) == 0x1_0000 && Pow2(32) == 0x1_0000_0000
    ensures Pow2(64) == 0x1_0000_0000_0000_0000
  {
    assert Pow2(4) == 16;
    Pow2Add(4, 3);
    Pow2Add(4, 4);
    Pow2Add(8, 8);
    Pow2Add(16, 16);
    Pow2Add(32, 32);
  }

  // ---------------------------------------------------------------- fixed width

  function Pow256(n: nat): nat {
    if n == 0 then 1 else 256 * Pow256(n - 1)
  }

  /** The n bytes of a number, least significant first. */
  function LE(v: nat, n: nat): (s: seq<byte>)
    ensures |s| == n
  {
    if n == 0 then [] else [(v % 256) as byte] + LE(v / 256, n - 1)
  }

  function FromLE(s: seq<byte>): nat {
    if s == [] then 0 else s[0] as nat + 256 * FromLE(s[1..])
  }

  function Reverse(s: seq<byte>): (r: seq<byte>)
    ensures |r| == |s|
  {
    if s == [] then [] else Reverse(s[1..]) + [s[0]]
  }

  lemma {:induction false} FromLEOfLE(v: nat, n: nat)
    requires v < Pow256(n)
    ensures FromLE(LE(v, n)) == v
  {
    if n > 0 {
      FromLEOfLE(v / 256, n - 1);
      assert LE(v, n)[1..] == LE(v / 256, n - 1);
    }
  }

  lemma {:induction false} LEOfFromLE(s: seq<byte>)
    ensures FromLE(s) < Pow256(|s|) && LE(FromLE(s), |s|) == s
  {
    if s != [] {
      LEOfFromLE(s[1..]);
      assert FromLE(s) / 256 == FromLE(s[1..]) && FromLE(s) % 256 == s[0] as nat;
    }
  }

  lemma {:induction false} ReverseAppend(a: seq<byte>, b: seq<byte>)
    ensures Reverse(a + b) == Reverse(b) + Reverse(a)
  {
    if a == [] {
      assert a + b == b;
    } else {
      ReverseAppend(a[1..], b);
      assert (a + b)[1..] == a[1..] + b;
    }
  }

  lemma {:induction false} ReverseTwice(s: seq<byte>)
    ensures Reverse(Reverse(s)) == s
  {
    if s != [] {
      ReverseTwice(s[1..]);
      ReverseAppend(Reverse(s[1..]), [s[0]]);
      assert Reverse([s[0]]) == [s[0]];
    }
  }

  /** byteswap: the number with its n bytes in the opposite order. */
  function ByteSwap(v: nat, n: nat): nat {
    FromLE(Reverse(LE(v, n)))
  }

  /** How a number lies in the memory of the host. */
  function Memory(v: nat, n: nat, host: Order): seq<byte> {
    if host == Little then LE(v, n) else Reverse(LE(v, n))
  }

  function FromMemory(s: seq<byte>, host: Order): nat {
    if host == Little then FromLE(s) else FromLE(Reverse(s))
  }

  /** The bytes of a number in the order of the array, whatever the host. */
  function OrderBytes(v: nat, n: nat, order: Order): (s: seq<byte>)
    ensures |s| == n
  {
    if order == Little then LE(v, n) else Reverse(LE(v, n))
  }

  function FromOrder(s: seq<byte>, order: Order): nat {
    if order == Little then FromLE(s) else FromLE(Reverse(s))
  }

  /** Swapping if the orders differ and storing as the host does gives the bytes in the
      array's order on every host, and reading undoes it. */
  lemma HostIndependent(v: nat, n: nat, order: Order, host: Order)
    requires v < Pow256(n)
    ensures ByteSwap(v, n) < Pow256(n) && ByteSwap(ByteSwap(v, n), n) == v
    ensures Memory(if order != host then ByteSwap(v, n) else v, n, host) == OrderBytes(v, n, order)
  {
    LEOfFromLE(Reverse(LE(v, n)));
    ReverseTwice(LE(v, n));
    FromLEOfLE(v, n);
  }

  lemma HostIndependentRead(s: seq<byte>, order: Order, host: Order)
    ensures (if order != host then ByteSwap(FromMemory(s, host), |s|) else FromMemory(s, host)) == FromOrder(s, order)
  {
    LEOfFromLE(s);
    LEOfFromLE(Reverse(s));
    ReverseTwice(s);
  }

  lemma FixedRoundTrip(v: nat, n: nat, order: Order)
    requires v < Pow256(n)
    ensures FromOrder(OrderBytes(v, n, order), order) == v
  {
    FromLEOfLE(v, n);
    ReverseTwice(LE(v, n));
  }

  // ---------------------------------------------------------------- two's complement

  /** The unsigned number with the bits of a signed one, and back. */
  function Wrap(v: int, bits: nat): (u: nat)
    requires bits > 0
    ensures u < Pow2(bits)
  {
    var m := Pow2(bits);
    if 0 <= v < m then v else if v < 0 && 0 <= v + m then v + m else v % m
  }

  lemma WrapIsModulo(v: int, bits: nat)
    requires bits > 0
    ensures Pow2(bits) > 0 && Wrap(v, bits) == v % Pow2(bits)
  {
    var m := Pow2(bits);
    if 0 <= v < m {
      ModIs(v, m, 0, v);
    } else if v < 0 && 0 <= v + m {
      ModIs(v, m, -1, v + m);
    }
  }

  function Unwrap(u: nat, bits: nat): int
    requires bits > 0
  {
    if u < Pow2(bits - 1) then u else u - Pow2(bits)
  }

  predicate Signed(v: int, bits: nat)
    requires bits > 0
  {
    0 <= v + Pow2(bits - 1) && v < Pow2(bits - 1)
  }

  lemma ModIs(v: int, m: int, k: int, r: int)
    requires m > 0 && 0 <= r < m && v == k * m + r
    ensures v % m == r
  {
    var q := v / m;
    assert v == q * m + v % m;
    assert (q - k) * m == r - v % m;
    NoMultiple(q - k, m);
  }

  lemma WrapRoundTrip(v: int, bits: nat)
    requires bits > 0 && Signed(v, bits)
    ensures Unwrap(Wrap(v, bits), bits) == v
  {
  }

  // ---------------------------------------------------------------- zigzag

  /** EncodeZigzag: the negation and the doubling wrap around in `bits` bits. */
  function ZigZag(v: int, bits: nat): nat
    requires bits > 0
  {
    if v < 0 then Wrap(Wrap(-v, bits) * 2 - 1, bits) else Wrap(v * 2, bits)
  }

  /** DecodeZigzag: exclusive-or with all ones is the complement. */
  function UnZigZag(u: nat, bits: nat): int
    requires bits > 0
  {
    Unwrap(if u % 2 == 0 then u / 2 else Wrap(Pow2(bits) - 1 - u / 2, bits), bits)
  }

  /** Zigzag numbers the integers 0, -1, 1, -2, ... without a gap, down to the most negative
      one, and decoding undoes it. */
  lemma ZigZagRoundTrip(v: int, bits: nat)
    requires bits > 0 && Signed(v, bits)
    ensures ZigZag(v, bits) == if v < 0 then -2 * v - 1 else 2 * v
    ensures ZigZag(v, bits) < Pow2(bits) && UnZigZag(ZigZag(v, bits), bits) == v
  {
    var m := Pow2(bits);
    assert m == 2 * Pow2(bits - 1);
    if v < 0 {
      UnZigZagOdd(-v, bits);
    } else {
      UnZigZagEven(v, bits);
    }
  }

  lemma UnZigZagEven(k: nat, bits: nat)
    requires bits > 0 && k < Pow2(bits - 1)
    ensures UnZigZag(2 * k, bits) == k
  {
    assert (2 * k) % 2 == 0 && (2 * k) / 2 == k;
  }

  lemma UnZigZagOdd(k: nat, bits: nat)
    requires bits > 0 && 0 < k <= Pow2(bits - 1)
    ensures UnZigZag(2 * k - 1, bits) + k == 0
  {
    assert (2 * k - 1) % 2 == 1 && (2 * k - 1) / 2 == k - 1;
  }

  lemma UnZigZagRoundTrip(u: nat, bits: nat)
    requires bits > 0 && u < Pow2(bits)
    ensures Signed(UnZigZag(u, bits), bits) && ZigZag(UnZigZag(u, bits), bits) == u
  {
    var m := Pow2(bits);
    if u % 2 == 0 {
      ZigZagRoundTrip(u / 2, bits);
    } else {
      ZigZagRoundTrip(-(u / 2) - 1, bits);
    }
  }

  // ---------------------------------------------------------------- varints

  /** Groups of seven bits, least significant first; all but the last have the top bit set. */
  function Varint(v: nat): (s: seq<byte>)
    ensures s != []
  {
    if v < 128 then [v as byte] else [(v % 128 + 128) as byte] + Varint(v / 128)
  }

  datatype Decoded = Short | Decoded(value: nat, used: nat)

  /** The readers' loop from shift `i` on, in `bits` bits: it stops at a byte below 128 or
      when the shift has reached the width, and fails when the bytes run out.  The groups do
      not overlap, so `|=` is addition. */
  function DecodeVar(s: seq<byte>, i: nat, bits: nat): Decoded
    requires bits > 0
    decreases bits + 7 - i
  {
    if i >= bits then Decoded(0, 0)
    else if s == [] then Short
    else if s[0] < 128 then Decoded(Wrap(s[0] as int * Pow2(i), bits), 1)
    else
      match DecodeVar(s[1..], i + 7, bits)
      case Short => Short
      case Decoded(v, n) => Decoded(Wrap((s[0] as int - 128) * Pow2(i), bits) + v, n + 1)
  }

  lemma ShiftFits(v: nat, i: nat, bits: nat)
    requires v >= 1 && v * Pow2(i) < Pow2(bits)
    ensures i < bits
  {
    if i >= bits {
      Pow2Monotone(bits, i);
      MulAtLeast(v, Pow2(i));
    }
  }

  lemma SplitShift(v: nat, i: nat)
    ensures v * Pow2(i) == (v % 128) * Pow2(i) + (v / 128) * Pow2(i + 7)
    ensures 0 <= (v / 128) * Pow2(i + 7) <= v * Pow2(i)
  {
    Pow2Add(i, 7);
    Pow2Values();
    var p, q, r := Pow2(i), v / 128, v % 128;
    assert v == 128 * q + r;
    assert v * p == q * (p * 128) + r * p;
    assert r * p >= 0 && q * (p * 128) >= 0;
  }

  /** The reader undoes the writer and consumes exactly its bytes. */
  lemma {:induction false} VarintRoundTrip(v: nat, i: nat, bits: nat, rest: seq<byte>)
    requires bits > 0 && v * Pow2(i) < Pow2(bits) && i < bits
    ensures DecodeVar(Varint(v) + rest, i, bits) == Decoded(v * Pow2(i), |Varint(v)|)
    decreases v
  {
    var s := Varint(v) + rest;
    if v >= 128 {
      SplitShift(v, i);
      ShiftFits(v / 128, i + 7, bits);
      VarintRoundTrip(v / 128, i + 7, bits, rest);
      assert s[1..] == Varint(v / 128) + rest;
    }
  }

  /** So many bytes: one for each seven bits begun. */
  lemma {:induction false} VarintLength(v: nat, n: nat)
    requires v < Pow2(7 * n) && n > 0
    ensures |Varint(v)| <= n
  {
    if v >= 128 {
      Pow2Values();
      if n > 1 {
        Pow2Add(7, 7 * (n - 1));
        VarintLength(v / 128, n - 1);
      }
    }
  }

  lemma VarintWidths(v: nat)
    ensures v < Pow2(32) ==> |Varint(v)| <= 5
    ensures v < Pow2(64) ==> |Varint(v)| <= 10
  {
    Pow2Monotone(32, 35);
    Pow2Monotone(64, 70);
    if v < Pow2(32) {
      VarintLength(v, 5);
    }
    if v < Pow2(64) {
      VarintLength(v, 10);
    }
  }

  /** A complete varint: only its last byte is below 128. */
  predicate Complete(s: seq<byte>) {
    s != [] && s[|s| - 1] < 128 && forall k | 0 <= k < |s| - 1 :: s[k] >= 128
  }

  /** The number a complete varint stands for. */
  function ValueOf(s: seq<byte>): nat
    requires Complete(s)
  {
    if |s| == 1 then s[0] as nat else s[0] as nat - 128 + 128 * ValueOf(s[1..])
  }

  lemma {:induction false} VarintComplete(v: nat)
    ensures Complete(Varint(v)) && ValueOf(Varint(v)) == v
  {
    if v >= 128 {
      VarintComplete(v / 128);
      assert Varint(v)[1..] == Varint(v / 128);
    }
  }

  /** No complete varint of the same number is shorter. */
  lemma {:induction false} VarintMinimal(s: seq<byte>)
    requires Complete(s)
    ensures |Varint(ValueOf(s))| <= |s|
  {
    if |s| > 1 {
      VarintMinimal(s[1..]);
    }
  }

  /** No encoding is a proper prefix of another: reading never depends on what follows. */
  lemma PrefixFree(v: nat, w: nat, rest: seq<byte>)
    requires Varint(v) + rest == Varint(w)
    ensures v == w && rest == []
  {
    VarintComplete(v);
    VarintComplete(w);
    var a, b := Varint(v), Varint(w);
    assert b[|a| - 1] == a[|a| - 1];
    assert rest == [] && a == b;
  }

  // ---------------------------------------------------------------- typed values

  datatype Prefix = F16 | F32 | F64 | Vint

  /** What can be written: integers of a fixed width in bytes, varints of 32 or 64 bits, both
      signed or not, and strings by the kind of their length prefix. */
  datatype Value =
    | Fixed(n: nat, signed: bool, v: int)
    | Var(bits: nat, signed: bool, v: int)
    | Text(prefix: Prefix, s: seq<byte>)

  /** The type, without the value: what a reader has to know. */
  datatype Kind = KFixed(n: nat, signed: bool) | KVar(bits: nat, signed: bool) | KText(prefix: Prefix)

  function KindOf(v: Value): Kind {
    match v
    case Fixed(n, signed, _) => KFixed(n, signed)
    case Var(bits, signed, _) => KVar(bits, signed)
    case Text(prefix, _) => KText(prefix)
  }

  predicate InRange(v: int, bits: nat, signed: bool)
    requires bits > 0
  {
    if signed then Signed(v, bits) else 0 <= v < Pow2(bits)
  }

  function PrefixBits(p: Prefix): nat {
    match p
    case F16 => 16
    case F32 => 32
    case F64 => 64
    case Vint => 64
  }

  /** The value has its type, and a string is short enough for its length prefix. */
  predicate Fits(v: Value) {
    match v
    case Fixed(n, signed, x) => n in {1, 2, 4, 8} && InRange(x, 8 * n, signed)
    case Var(bits, signed, x) => bits in {32, 64} && InRange(x, bits, signed)
    case Text(prefix, s) => |s| < Pow2(PrefixBits(prefix))
  }

  type Writable = v: Value | Fits(v) witness Text(F16, [])

  function EncodeFixed(x: int, n: nat, order: Order): seq<byte>
    requires n > 0
  {
    OrderBytes(Wrap(x, 8 * n), n, order)
  }

  function EncodeVar(x: int, bits: nat, signed: bool): seq<byte>
    requires bits > 0
  {
    Varint(if signed then ZigZag(x, bits) else Wrap(x, bits))
  }

  /** The length is converted to the prefix's type, which cuts a longer one off. */
  function EncodeLength(n: nat, p: Prefix, order: Order): seq<byte> {
    if p == Vint then EncodeVar(n, 64, false) else EncodeFixed(n, PrefixBits(p) / 8, order)
  }

  function Encode(v: Writable, order: Order): seq<byte> {
    match v
    case Fixed(n, _, x) => EncodeFixed(x, n, order)
    case Var(bits, signed, x) => EncodeVar(x, bits, signed)
    case Text(prefix, s) => EncodeLength(|s|, prefix, order) + s
  }

  function EncodeAll(vs: seq<Writable>, order: Order): seq<byte> {
    if vs == [] then [] else Encode(vs[0], order) + EncodeAll(vs[1..], order)
  }

  // ---------------------------------------------------------------- decoding

  datatype Outcome<+T> = Got(value: T, used: nat) | TooShort

  function DecodeLength(s: seq<byte>, p: Prefix, order: Order): Outcome<int> {
    if p == Vint then DecodeVarint(s, 64, false) else DecodeFixed(s, PrefixBits(p) / 8, false, order)
  }

  function DecodeFixed(s: seq<byte>, n: nat, signed: bool, order: Order): Outcome<int>
    requires n > 0
  {
    if n > |s| then TooShort
    else
      var u := FromOrder(s[..n], order);
      Got(if signed then Unwrap(u, 8 * n) else u, n)
  }

  function DecodeVarint(s: seq<byte>, bits: nat, signed: bool): Outcome<int>
    requires bits > 0
  {
    match DecodeVar(s, 0, bits)
    case Short => TooShort
    case Decoded(u, n) => Got(if signed then UnZigZag(u, bits) else u, n)
  }

  lemma Pow256Is(n: nat)
    ensures Pow256(n) == Pow2(8 * n)
  {
    if n > 0 {
      Pow256Is(n - 1);
      Pow2Add(8, 8 * (n - 1));
      Pow2Values();
    }
  }

  lemma FixedDecodes(x: int, n: nat, signed: bool, order: Order, rest: seq<byte>)
    requires n > 0 && InRange(x, 8 * n, signed)
    ensures DecodeFixed(EncodeFixed(x, n, order) + rest, n, signed, order) == Got(x, n)
  {
    Pow256Is(n);
    FixedRoundTrip(Wrap(x, 8 * n), n, order);
    assert (EncodeFixed(x, n, order) + rest)[..n] == EncodeFixed(x, n, order);
    if signed {
      WrapRoundTrip(x, 8 * n);
    }
  }

  lemma VarDecodes(x: int, bits: nat, signed: bool, rest: seq<byte>)
    requires bits > 0 && InRange(x, bits, signed)
    ensures DecodeVarint(EncodeVar(x, bits, signed) + rest, bits, signed) == Got(x, |EncodeVar(x, bits, signed)|)
  {
    if signed {
      ZigZagRoundTrip(x, bits);
      UnsignedDecodes(ZigZag(x, bits), bits, rest);
    } else {
      UnsignedDecodes(x, bits, rest);
    }
  }

  lemma UnsignedDecodes(u: nat, bits: nat, rest: seq<byte>)
    requires bits > 0 && u < Pow2(bits)
    ensures DecodeVar(Varint(u) + rest, 0, bits) == Decoded(u, |Varint(u)|)
  {
    VarintRoundTrip(u, 0, bits, rest);
  }

  /** A length comes back reduced to the width of its prefix: a string that is too long is cut. */
  lemma LengthDecodes(n: nat, p: Prefix, order: Order, rest: seq<byte>)
    ensures DecodeLength(EncodeLength(n, p, order) + rest, p, order)
            == Got(n % match p { case F16 => 0x1_0000 case F32 => 0x1_0000_0000 case _ => 0x1_0000_0000_0000_0000 },
                   |EncodeLength(n, p, order)|)
  {
    Pow2Values();
    var m := Wrap(n, PrefixBits(p));
    WrapIsModulo(n, PrefixBits(p));
    assert EncodeLength(m, p, order) == EncodeLength(n, p, order);
    if p == Vint {
      VarDecodes(m, 64, false, rest);
    } else {
      FixedDecodes(m, PrefixBits(p) / 8, false, order, rest);
    }
  }

  // ---------------------------------------------------------------- byte by byte

  lemma Regroup(a: nat, b: nat, c: nat, d: nat)
    ensures a * (b * c + d) == c * (a * b) + d * a
  {
    AddMul(b * c, d, a);
    assert (b * c) * a == c * (a * b);
  }

  lemma SmallRest(a: nat, b: nat, d: nat, r: nat)
    requires d < b && r < a
    ensures d * a + r < a * b
  {
    MulLe(d + 1, b, a);
    AddMul(d, 1, a);
  }

  lemma DivDiv(v: nat, a: nat, b: nat)
    requires a > 0 && b > 0
    ensures a * b > 0 && v / a / b == v / (a * b)
  {
    var q, r := v / a, v % a;
    Regroup(a, b, q / b, q % b);
    SmallRest(a, b, q % b, r);
    Quotients(v, a, q, r);
    Quotients(q, b, q / b, q % b);
    DivMod(v, a * b, q / b, q % b * a + r);
  }

  lemma Quotients(v: nat, a: nat, q: nat, r: nat)
    requires a > 0 && q == v / a && r == v % a
    ensures v == a * q + r
  {
  }

  lemma {:induction false} LEByte(v: nat, n: nat, k: nat)
    requires k < n
    ensures Pow256(k) > 0 && LE(v, n)[k] as nat == v / Pow256(k) % 256
    decreases k
  {
    if k > 0 {
      LEByte(v / 256, n - 1, k - 1);
      DivDiv(v, 256, Pow256(k - 1));
      assert LE(v, n)[k] == LE(v / 256, n - 1)[k - 1];
    }
  }

  lemma {:induction false} ReverseAt(s: seq<byte>, k: nat)
    requires k < |s|
    ensures Reverse(s)[k] == s[|s| - 1 - k]
  {
    if k < |s| - 1 {
      ReverseAt(s[1..], k);
    }
  }

  lemma Pow256Values()
    ensures Pow256(0) == 1 && Pow256(1) == 0x100 && Pow256(2) == 0x1_0000 && Pow256(4) == 0x1_0000_0000
    ensures Pow256(8) == 0x1_0000_0000_0000_0000
  {
    assert Pow256(8) == 256 * Pow256(7);
    assert Pow256(7) == 256 * Pow256(6);
    assert Pow256(6) == 256 * Pow256(5);
    assert Pow256(5) == 256 * Pow256(4);
  }

  /** The k-th digit of a number in base 256 is the k-th of its bytes, counted from the front for
      the little-endian order and from the back for the big-endian one. */
  lemma FixedByte(v: nat, n: nat, order: Order, k: nat)
    requires k < n
    ensures Pow256(k) > 0
    ensures OrderBytes(v, n, order)[if order == Little then k else n - 1 - k] as nat == v / Pow256(k) % 256
  {
    LEByte(v, n, k);
    if order == Big {
      ReverseAt(LE(v, n), n - 1 - k);
    }
  }

  /** The bytes of any number of 8 * n bits, signed or not: the digits of its two's complement. */
  lemma EncodedByte(x: int, n: nat, order: Order, k: nat)
    requires k < n
    ensures |EncodeFixed(x, n, order)| == n && Pow256(n) > 0 && Pow256(k) > 0
    ensures EncodeFixed(x, n, order)[if order == Little then k else n - 1 - k] as nat == x % Pow256(n) / Pow256(k) % 256
  {
    Pow256Is(n);
    Pow256Is(k);
    WrapIsModulo(x, 8 * n);
    FixedByte(Wrap(x, 8 * n), n, order, k);
  }

  /** The prefixes of strings take 2, 4 and 8 bytes, and their bytes are the digits of the length
      in base 256, in the order of the array; a length that is too long loses its upper digits. */
  lemma PrefixByte(n: nat, p: Prefix, order: Order, k: nat)
    ensures |EncodeLength(n, F16, order)| == 2 && |EncodeLength(n, F32, order)| == 4 && |EncodeLength(n, F64, order)| == 8
    ensures Pow256(k) > 0
    ensures p == F16 && k < 2 ==>
              EncodeLength(n, p, order)[if order == Little then k else 1 - k] as nat == n % 0x1_0000 / Pow256(k) % 256
    ensures p == F32 && k < 4 ==>
              EncodeLength(n, p, order)[if order == Little then k else 3 - k] as nat == n % 0x1_0000_0000 / Pow256(k) % 256
    ensures p == F64 && k < 8 ==>
              EncodeLength(n, p, order)[if order == Little then k else 7 - k] as nat
              == n % 0x1_0000_0000_0000_0000 / Pow256(k) % 256
    ensures p == Vint ==> EncodeLength(n, p, order) == Varint(n % 0x1_0000_0000_0000_0000)
  {
    Pow256Is(k);
    Pow256Values();
    Pow2Values();
    if p == Vint {
      WrapIsModulo(n, 64);
    } else {
      PrefixDigit(n, p, if p == F16 then 2 else if p == F32 then 4 else 8, order, k);
    }
  }

  lemma PrefixDigit(n: nat, p: Prefix, w: nat, order: Order, k: nat)
    requires (p == F16 && w == 2) || (p == F32 && w == 4) || (p == F64 && w == 8)
    ensures EncodeLength(n, p, order) == EncodeFixed(n, w, order) && Pow256(w) > 0 && Pow256(k) > 0
    ensures k < w ==> EncodeLength(n, p, order)[if order == Little then k else w - 1 - k] as nat == n % Pow256(w) / Pow256(k) % 256
  {
    Pow256Is(w);
    Pow256Is(k);
    if k < w {
      EncodedByte(n, w, order, k);
    }
  }

  /** The k-th byte of a varint is the k-th digit in base 128, with the top bit on all but the
      last one; and there is no digit more than there has to be. */
  lemma {:induction false} VarintByte(v: nat, k: nat)
    requires k < |Varint(v)|
    ensures Pow2(7 * k) > 0
    ensures Varint(v)[k] as nat == v / Pow2(7 * k) % 128 + if k < |Varint(v)| - 1 then 128 else 0
    ensures k == |Varint(v)| - 1 ==> v / Pow2(7 * k) < 128 && (k > 0 ==> v / Pow2(7 * k) > 0)
    decreases k
  {
    if k > 0 {
      VarintByte(v / 128, k - 1);
      GroupShift(v, k);
      assert Varint(v)[k] == Varint(v / 128)[k - 1];
    } else {
      assert Pow2(0) == 1;
    }
  }

  lemma GroupShift(v: nat, k: nat)
    requires k > 0
    ensures Pow2(7 * (k - 1)) > 0 && v / 128 / Pow2(7 * (k - 1)) == v / Pow2(7 * k)
    ensures k == 1 ==> v / Pow2(7 * (k - 1)) == v
  {
    Pow2Values();
    Pow2Add(7, 7 * (k - 1));
    DivDiv(v, 128, Pow2(7 * (k - 1)));
    assert Pow2(0) == 1;
  }

  /** How long a string may be. */
  lemma TextFits(p: Prefix, s: seq<byte>)
    ensures Fits(Text(p, s)) <==>
              |s| < match p { case F16 => 0x1_0000 case F32 => 0x1_0000_0000 case F64 => 0x1_0000_0000_0000_0000
                              case Vint => 0x1_0000_0000_0000_0000 }
  {
    Pow2Values();
  }

  /** The ranges of the types. */
  lemma RangesAre(v: int)
    ensures InRange(v, 8, true) <==> -128 <= v <= 127
    ensures InRange(v, 16, true) <==> -0x8000 <= v <= 0x7fff
    ensures InRange(v, 32, true) <==> -0x8000_0000 <= v <= 0x7fff_ffff
    ensures InRange(v, 64, true) <==> -0x8000_0000_0000_0000 <= v <= 0x7fff_ffff_ffff_ffff
    ensures InRange(v, 8, false) <==> 0 <= v <= 0xff
    ensures InRange(v, 16, false) <==> 0 <= v <= 0xffff
    ensures InRange(v, 32, false) <==> 0 <= v <= 0xffff_ffff
    ensures InRange(v, 64, false) <==> 0 <= v <= 0xffff_ffff_ffff_ffff
  {
    Pow2Values();
    assert Pow2(8) == 2 * Pow2(7) && Pow2(16) == 2 * Pow2(15) && Pow2(32) == 2 * Pow2(31) && Pow2(64) == 2 * Pow2(63);
  }
}
