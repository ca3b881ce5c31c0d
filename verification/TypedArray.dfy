/**
  The typed writers and readers of ByteArray.
*/
module TypedArray {
  import opened ByteArray
  import opened Codec

  /** What a reader comes to: a value, the out_of_range exception, or the dereferencing of a
      null m_cur by a read of no bytes at the capacity. */
  datatype ReadResult<+T> = Value(value: T) | OutOfRangeError | Fault

  lemma PatchJoin(s: seq<byte>, p: nat, a: seq<byte>, b: seq<byte>)
    requires p <= |s|
    ensures Patch(Patch(s, p, a), p + |a|, b) == Patch(s, p, a + b)
  {
  }

  // ---------------------------------------------------------------- writers

  method WriteFixed(ba: ByteArray, x: int, n: nat, signed: bool, order: Order, host: Order)
    requires ba.Valid() && n > 0 && InRange(x, 8 * n, signed)
    modifies ba.Repr
    ensures ba.Valid() && fresh(ba.Repr - old(ba.Repr)) && (old(ba.Tight()) ==> ba.Tight()) && ba.position == old(ba.position) + n
    ensures ba.Contents() == Patch(old(ba.Contents()), old(ba.position), EncodeFixed(x, n, order))
  {
    var value: nat := Wrap(x, 8 * n);
    Pow256Is(n);
    HostIndependent(value, n, order, host);
    if order != host {
      value := ByteSwap(value, n);
    }
    ba.Write(Memory(value, n, host));
  }

  /** writeUint32 and writeUint64. */
  method WriteUint(ba: ByteArray, u: nat, bits: nat)
    requires ba.Valid() && bits in {32, 64} && u < Pow2(bits)
    modifies ba.Repr
    ensures ba.Valid() && fresh(ba.Repr - old(ba.Repr)) && (old(ba.Tight()) ==> ba.Tight())
    ensures ba.position == old(ba.position) + |Varint(u)|
    ensures ba.Contents() == Patch(old(ba.Contents()), old(ba.position), Varint(u))
  {
    var tmp := Groups(u, bits);
    ba.Write(tmp);
  }

  /** Their loop; `tmp` never outgrows its 5 or 10 bytes. */
  method Groups(u: nat, bits: nat) returns (tmp: seq<byte>)
    requires bits in {32, 64} && u < Pow2(bits)
    ensures tmp == Varint(u) && |tmp| <= if bits == 32 then 5 else 10
  {
    tmp := [];
    var value: nat := u;
    VarintWidths(u);
    while value >= 0x80
      invariant tmp + Varint(value) == Varint(u)
    {
      assert |tmp| < if bits == 32 then 5 else 10;
      VarintStep(tmp, value);
      tmp := tmp + [(value % 128 + 128) as byte];
      value := value / 128;
    }
    tmp := tmp + [value as byte];
  }

  lemma VarintStep(tmp: seq<byte>, value: nat)
    requires value >= 128
    ensures tmp + Varint(value) == tmp + [(value % 128 + 128) as byte] + Varint(value / 128)
  {
  }

  /** writeInt32, writeUint32, writeInt64, writeUint64 */
  method WriteVar(ba: ByteArray, x: int, bits: nat, signed: bool)
    requires ba.Valid() && bits in {32, 64} && InRange(x, bits, signed)
    modifies ba.Repr
    ensures ba.Valid() && fresh(ba.Repr - old(ba.Repr)) && (old(ba.Tight()) ==> ba.Tight()) && ba.position == old(ba.position) + |EncodeVar(x, bits, signed)|
    ensures ba.Contents() == Patch(old(ba.Contents()), old(ba.position), EncodeVar(x, bits, signed))
  {
    if signed {
      ZigZagRoundTrip(x, bits);
      WriteUint(ba, ZigZag(x, bits), bits);
    } else {
      WriteUint(ba, x, bits);
    }
  }

  /** The length is converted to the prefix's type first. */
  method WriteLength(ba: ByteArray, n: nat, p: Prefix, order: Order, host: Order)
    requires ba.Valid()
    modifies ba.Repr
    ensures ba.Valid() && fresh(ba.Repr - old(ba.Repr)) && (old(ba.Tight()) ==> ba.Tight()) && ba.position == old(ba.position) + |EncodeLength(n, p, order)|
    ensures ba.Contents() == Patch(old(ba.Contents()), old(ba.position), EncodeLength(n, p, order))
  {
    var len: nat := Wrap(n, PrefixBits(p));
    if p == Vint {
      WriteVar(ba, len, 64, false);
    } else {
      WriteFixed(ba, len, PrefixBits(p) / 8, false, order, host);
    }
  }

  /** writeStringF16, F32, F64 and Vint: the length as the prefix's type, which cuts a longer one
      off, then all the bytes. */
  method WriteText(ba: ByteArray, s: seq<byte>, p: Prefix, order: Order, host: Order)
    requires ba.Valid()
    modifies ba.Repr
    ensures ba.Valid() && fresh(ba.Repr - old(ba.Repr)) && (old(ba.Tight()) ==> ba.Tight())
    ensures ba.position == old(ba.position) + |EncodeLength(|s|, p, order) + s|
    ensures ba.position == old(ba.position) + |s| + match p { case F16 => 2 case F32 => 4 case F64 => 8
                                                              case Vint => |Varint(|s| % 0x1_0000_0000_0000_0000)| }
    ensures ba.Contents() == Patch(old(ba.Contents()), old(ba.position), EncodeLength(|s|, p, order) + s)
  {
    PrefixByte(|s|, p, order, 0);
    ghost var c, from, enc := ba.Contents(), ba.position, EncodeLength(|s|, p, order);
    WriteLength(ba, |s|, p, order, host);
    WriteRest(ba, s, c, from, enc);
  }

  /** A write behind one that has written `enc` from p on. */
  method WriteRest(ba: ByteArray, s: seq<byte>, ghost c: seq<byte>, ghost p: nat, ghost enc: seq<byte>)
    requires ba.Valid() && p <= |c| && ba.position == p + |enc| && ba.Contents() == Patch(c, p, enc)
    modifies ba.Repr
    ensures ba.Valid() && fresh(ba.Repr - old(ba.Repr)) && (old(ba.Tight()) ==> ba.Tight())
    ensures ba.position == p + |enc + s| && ba.Contents() == Patch(c, p, enc + s)
  {
    PatchJoin(c, p, enc, s);
    ba.Write(s);
  }

  method WriteValue(ba: ByteArray, v: Writable, order: Order, host: Order)
    requires ba.Valid()
    modifies ba.Repr
    ensures ba.Valid() && fresh(ba.Repr - old(ba.Repr)) && (old(ba.Tight()) ==> ba.Tight()) && ba.position == old(ba.position) + |Encode(v, order)|
    ensures ba.Contents() == Patch(old(ba.Contents()), old(ba.position), Encode(v, order))
  {
    match v
    case Fixed(n, signed, x) => WriteFixed(ba, x, n, signed, order, host);
    case Var(bits, signed, x) => WriteVar(ba, x, bits, signed);
    case Text(p, s) => WriteText(ba, s, p, order, host);
  }

  // ---------------------------------------------------------------- readers

  method ReadFixed(ba: ByteArray, n: nat, signed: bool, order: Order, host: Order) returns (r: ReadResult<int>)
    requires ba.Valid() && n > 0
    modifies ba`position, ba`cur, ba`at, ba`start
    ensures ba.Valid() && ba.Contents() == old(ba.Contents())
    ensures match DecodeFixed(ba.Contents()[old(ba.position)..], n, signed, order) {
              case TooShort => r == OutOfRangeError && ba.position == old(ba.position)
              case Got(x, used) => r == Value(x) && ba.position == old(ba.position) + used
            }
  {
    var buf := ba.Read(n);
    if buf.OutOfRange? {
      return OutOfRangeError;
    }
    assert ba.Contents()[old(ba.position)..][..n] == buf.value;
    HostIndependentRead(buf.value, order, host);
    var value := FromMemory(buf.value, host);
    if order != host {
      value := ByteSwap(value, n);
    }
    return Value(if signed then Unwrap(value, 8 * n) else value);
  }

  /** readUint32 and readUint64, on any bytes.  When the bytes run out the exception comes from
      the last readFuint8, with all of them consumed. */
  method ReadUint(ba: ByteArray, bits: nat) returns (r: ReadResult<nat>)
    requires ba.Valid() && bits in {32, 64}
    modifies ba`position, ba`cur, ba`at, ba`start
    ensures ba.Valid() && ba.Contents() == old(ba.Contents())
    ensures match DecodeVar(ba.Contents()[old(ba.position)..], 0, bits) {
              case Short => r == OutOfRangeError && ba.position == ba.size
              case Decoded(u, used) => r == Value(u) && u < Pow2(bits) && ba.position == old(ba.position) + used
            }
  {
    ghost var whole := DecodeVar(ba.Contents()[ba.position..], 0, bits);
    var ok, result := ReadGroups(ba, bits, whole);
    return if ok then Value(result) else OutOfRangeError;
  }

  /** Their loop. */
  method ReadGroups(ba: ByteArray, bits: nat, ghost whole: Decoded) returns (ok: bool, result: nat)
    requires ba.Valid() && bits > 0 && ReadSoFar(ba, whole, 0, 0, bits, ba.position)
    modifies ba`position, ba`cur, ba`at, ba`start
    ensures ba.Valid() && ba.Contents() == old(ba.Contents()) && ba.position >= old(ba.position)
    ensures if ok then whole == Decoded(result, ba.position - old(ba.position)) && result < Pow2(bits)
            else whole == Short && ba.position == ba.size
  {
    result := 0;
    var i: nat := 0;
    ghost var from := ba.position;
    while i < bits
      invariant ba.Valid() && ba.Contents() == old(ba.Contents()) && ReadSoFar(ba, whole, result, i, bits, from)
      decreases bits - i
    {
      var last;
      ok, last, result := ReadGroup(ba, i, bits, result, whole, from);
      if !ok || last {
        return;
      }
      i := i + 7;
    }
    ok := true;
    AllGroups(ba, whole, result, i, bits, from);
  }

  lemma AllGroups(ba: ByteArray, whole: Decoded, result: nat, i: nat, bits: nat, from: nat)
    requires ba.Valid() && 0 < bits <= i && ReadSoFar(ba, whole, result, i, bits, from)
    ensures from <= ba.position && whole == Decoded(result, ba.position - from) && result < Pow2(bits)
  {
    ReadingDone(whole, result, i, bits, ba.position - from, ba.Contents()[ba.position..]);
  }

  /** Where the loop stands at shift i. */
  ghost predicate ReadSoFar(ba: ByteArray, whole: Decoded, result: nat, i: nat, bits: nat, from: nat)
    requires ba.Valid() && bits > 0
    reads ba, ba.nodes, Arrays(ba.nodes)
  {
    && from <= ba.position && result < Pow2(i) && result < Pow2(bits)
    && Reading(whole, result, i, bits, ba.position - from, ba.Contents()[ba.position..])
  }

  /** One pass of that loop: the next seven bits, from shift i on. */
  method ReadGroup(ba: ByteArray, i: nat, bits: nat, low: nat, ghost whole: Decoded, ghost from: nat)
      returns (ok: bool, last: bool, result: nat)
    requires ba.Valid() && i < bits && ReadSoFar(ba, whole, low, i, bits, from)
    modifies ba`position, ba`cur, ba`at, ba`start
    ensures ba.Valid() && ba.Contents() == old(ba.Contents()) && ba.position >= old(ba.position)
    ensures !ok ==> whole == Short && ba.position == ba.size
    ensures ok && last ==> from <= ba.position && whole == Decoded(result, ba.position - from) && result < Pow2(bits)
    ensures ok && !last ==> ReadSoFar(ba, whole, result, i + 7, bits, from)
  {
    ghost var used, rest := ba.position - from, ba.Contents()[ba.position..];
    var b := ReadByte(ba);
    if b == OutOfRangeError {
      ReadingShort(whole, low, i, bits, used);
      return false, false, low;
    }
    NextGroup(whole, low, i, bits, used, rest);
    return true, b.value < 0x80, low + Group(b.value as nat % 128, i, bits);
  }

  lemma ReadingShort(whole: Decoded, low: nat, i: nat, bits: nat, used: nat)
    requires 0 < bits && i < bits && Reading(whole, low, i, bits, used, [])
    ensures whole == Short
  {
  }

  lemma ReadingDone(whole: Decoded, low: nat, i: nat, bits: nat, used: nat, rest: seq<byte>)
    requires 0 < bits <= i && Reading(whole, low, i, bits, used, rest)
    ensures whole == Decoded(low, used)
  {
  }

  /** One group more has been read. */
  lemma NextGroup(whole: Decoded, low: nat, i: nat, bits: nat, used: nat, rest: seq<byte>)
    requires i < bits && low < Pow2(i) && rest != [] && Reading(whole, low, i, bits, used, rest)
    ensures var next := low + Group(rest[0] as nat % 128, i, bits);
            && next < Pow2(i + 7) && next < Pow2(bits)
            && if rest[0] < 128 then whole == Decoded(next, used + 1)
               else Reading(whole, next, i + 7, bits, used + 1, rest[1..])
  {
    GroupAbove(rest[0] as nat % 128, i, bits, low);
  }

  /** What is left to decode from shift i on makes up the whole with what has been. */
  ghost predicate Reading(whole: Decoded, low: nat, i: nat, bits: nat, used: nat, rest: seq<byte>)
    requires bits > 0
  {
    whole == match DecodeVar(rest, i, bits)
                             case Short => Short
                             case Decoded(v, n) => Decoded(low + v, used + n)
  }

  /** Seven bits shifted left by i, in the width of the result. */
  function Group(g: nat, i: nat, bits: nat): nat
    requires bits > 0
  {
    Wrap(g * Pow2(i), bits)
  }

  /** The group just read lies above the bits collected before, so `|=` adds it; and together
      they stay within the width and within the bits read so far. */
  lemma GroupAbove(g: nat, i: nat, bits: nat, low: nat)
    requires g < 128 && low < Pow2(i) && i < bits
    ensures Group(g, i, bits) == g % Pow2(bits - i) * Pow2(i)
    ensures low + Group(g, i, bits) < Pow2(bits) && low + Group(g, i, bits) < Pow2(i + 7)
  {
    GroupIs(g, i, bits);
    Pow2Add(bits - i, i);
    Below(g % Pow2(bits - i), Pow2(bits - i), Pow2(i), low);
    Pow2Add(i, 7);
    Pow2Values();
    ModSmall(g, Pow2(bits - i));
    Below(g % Pow2(bits - i), 128, Pow2(i), low);
  }

  lemma GroupIs(g: nat, i: nat, bits: nat)
    requires i < bits
    ensures Group(g, i, bits) == g % Pow2(bits - i) * Pow2(i)
  {
    Pow2Add(bits - i, i);
    WrapIsModulo(g * Pow2(i), bits);
    ScaledModulo(g, Pow2(bits - i), Pow2(i));
  }

  lemma ModSmall(g: nat, m: nat)
    requires m > 0
    ensures g % m <= g
  {
  }

  lemma ScaledModulo(g: nat, m: nat, p: nat)
    requires m > 0 && p > 0
    ensures m * p > 0 && (g * p) % (m * p) == (g % m) * p
  {
    var q, c := g / m, g % m;
    MulAtLeast(m, p);
    MulLe(c + 1, m, p);
    AddMul(c, 1, p);
    AddMul(q * m, c, p);
    assert g == q * m + c && (q * m) * p == q * (m * p);
    ModIs(g * p, m * p, q, c * p);
  }

  lemma Below(c: nat, m: nat, p: nat, low: nat)
    requires c < m && low < p
    ensures low + c * p < m * p
  {
    MulLe(c + 1, m, p);
    AddMul(c, 1, p);
  }

  /** readFuint8 */
  method ReadByte(ba: ByteArray) returns (b: ReadResult<byte>)
    requires ba.Valid()
    modifies ba`position, ba`cur, ba`at, ba`start
    ensures ba.Valid() && ba.Contents() == old(ba.Contents())
    ensures old(ba.position) == ba.size ==> b == OutOfRangeError && ba.position == old(ba.position)
    ensures old(ba.position) < ba.size ==>
              && b == Value(ba.Contents()[old(ba.position)]) && ba.position == old(ba.position) + 1
              && ba.Contents()[ba.position..] == ba.Contents()[old(ba.position)..][1..]
  {
    var buf := ba.Read(1);
    if buf.OutOfRange? {
      return OutOfRangeError;
    }
    return Value(buf.value[0]);
  }

  /** readInt32, readUint32, readInt64, readUint64 */
  method ReadVar(ba: ByteArray, bits: nat, signed: bool) returns (r: ReadResult<int>)
    requires ba.Valid() && bits in {32, 64}
    modifies ba`position, ba`cur, ba`at, ba`start
    ensures ba.Valid() && ba.Contents() == old(ba.Contents())
    ensures match DecodeVarint(ba.Contents()[old(ba.position)..], bits, signed) {
              case TooShort => r == OutOfRangeError && ba.position == ba.size
              case Got(x, used) => r == Value(x) && ba.position == old(ba.position) + used
            }
  {
    var u := ReadUint(ba, bits);
    if u == OutOfRangeError {
      return OutOfRangeError;
    }
    return Value(if signed then UnZigZag(u.value, bits) else u.value);
  }

  method ReadLength(ba: ByteArray, p: Prefix, order: Order, host: Order) returns (r: ReadResult<int>)
    requires ba.Valid()
    modifies ba`position, ba`cur, ba`at, ba`start
    ensures ba.Valid() && ba.Contents() == old(ba.Contents())
    ensures match DecodeLength(ba.Contents()[old(ba.position)..], p, order) {
              case TooShort => r == OutOfRangeError && ba.position == if p == Vint then ba.size else old(ba.position)
              case Got(n, used) => r == Value(n) && n >= 0 && ba.position == old(ba.position) + used
            }
  {
    if p == Vint {
      r := ReadVar(ba, 64, false);
    } else {
      r := ReadFixed(ba, PrefixBits(p) / 8, false, order, host);
    }
  }

  /** The readers of strings, on any bytes.  An empty string is the one that can go wrong:
      reading its no bytes at the capacity looks at a null node. */
  method ReadText(ba: ByteArray, p: Prefix, order: Order, host: Order) returns (r: ReadResult<seq<byte>>)
    requires ba.Valid()
    modifies ba`position, ba`cur, ba`at, ba`start
    ensures ba.Valid() && ba.Contents() == old(ba.Contents())
    ensures var bytes := ba.Contents()[old(ba.position)..];
            match DecodeLength(bytes, p, order) {
              case TooShort => r == OutOfRangeError && ba.position == if p == Vint then ba.size else old(ba.position)
              case Got(n, used) =>
                && 0 <= n && used <= |bytes|
                && ba.position == old(ba.position) + used + (if n <= |bytes| - used then n else 0)
                && r == (if n > |bytes| - used then OutOfRangeError
                         else if n == 0 && ba.position == ba.capacity then Fault
                         else Value(bytes[used..used + n]))
            }
  {
    ghost var bytes := ba.Contents()[ba.position..];
    var len := ReadLength(ba, p, order, host);
    if len == OutOfRangeError {
      return OutOfRangeError;
    }
    ghost var used := ba.position - old(ba.position);
    assert ba.Contents()[ba.position..] == bytes[used..];
    r := ReadBytes(ba, len.value);
    assert len.value <= |bytes| - used ==> bytes[used..][..len.value] == bytes[used..used + len.value];
  }

  method ReadBytes(ba: ByteArray, n: nat) returns (r: ReadResult<seq<byte>>)
    requires ba.Valid()
    modifies ba`position, ba`cur, ba`at, ba`start
    ensures ba.Valid() && ba.Contents() == old(ba.Contents())
    ensures var rest := ba.Contents()[old(ba.position)..];
            && ba.position == old(ba.position) + (if n <= |rest| then n else 0)
            && r == (if n > |rest| then OutOfRangeError
                     else if n == 0 && ba.position == ba.capacity then Fault
                     else Value(rest[..n]))
  {
    ghost var rest := ba.Contents()[ba.position..];
    var buf := ba.Read(n);
    if buf.OutOfRange? {
      return OutOfRangeError;
    }
    if buf.NullNode? {
      return Fault;
    }
    assert buf.value == rest[..n];
    return Value(buf.value);
  }

  /** The reader that belongs to a kind, on the bytes of a value of this kind. */
  method ReadValue(ba: ByteArray, kind: Kind, order: Order, host: Order, ghost v: Writable, ghost tail: seq<byte>)
      returns (r: ReadResult<Writable>)
    requires ba.Valid() && KindOf(v) == kind
    requires ba.Contents()[ba.position..] == Encode(v, order) + tail
    modifies ba`position, ba`cur, ba`at, ba`start
    ensures ba.Valid() && ba.Contents() == old(ba.Contents())
    ensures ba.position == old(ba.position) + |Encode(v, order)|
    ensures r == if IsEmptyText(v) && ba.position == ba.capacity then Fault else Value(v)
  {
    match kind
    case KFixed(n, signed) =>
      FixedDecodes(v.v, n, signed, order, tail);
      var x := ReadFixed(ba, n, signed, order, host);
      r := Value(Fixed(n, signed, x.value));
    case KVar(bits, signed) =>
      VarDecodes(v.v, bits, signed, tail);
      var x := ReadVar(ba, bits, signed);
      r := Value(Var(bits, signed, x.value));
    case KText(p) =>
      TextDecodes(v.s, p, order, tail);
      var s := ReadText(ba, p, order, host);
      r := if s.Value? then Value(Text(p, s.value)) else Fault;
  }

  lemma TextDecodes(s: seq<byte>, p: Prefix, order: Order, tail: seq<byte>)
    requires |s| < Pow2(PrefixBits(p))
    ensures var bytes, used := EncodeLength(|s|, p, order) + s + tail, |EncodeLength(|s|, p, order)|;
            DecodeLength(bytes, p, order) == Got(|s|, used) && bytes[used..used + |s|] == s
  {
    LengthDecodes(|s|, p, order, s + tail);
    Pow2Values();
    ModIs(|s|, Pow2(PrefixBits(p)), 0, |s|);
    assert EncodeLength(|s|, p, order) + (s + tail) == EncodeLength(|s|, p, order) + s + tail;
  }

  predicate IsEmptyText(v: Codec.Value) {
    v.Text? && v.s == []
  }

  // ---------------------------------------------------------------- lists of values

  /** One more value behind the bytes `enc` already written from p on. */
  method WriteNext(ba: ByteArray, v: Writable, order: Order, host: Order, ghost c: seq<byte>, ghost p: nat, ghost enc: seq<byte>)
    requires ba.Valid() && p <= |c| && ba.position == p + |enc| && ba.Contents() == Patch(c, p, enc)
    modifies ba.Repr
    ensures ba.Valid() && fresh(ba.Repr - old(ba.Repr)) && (old(ba.Tight()) ==> ba.Tight())
    ensures ba.position == p + |enc + Encode(v, order)| && ba.Contents() == Patch(c, p, enc + Encode(v, order))
  {
    PatchJoin(c, p, enc, Encode(v, order));
    WriteValue(ba, v, order, host);
  }

  method WriteMore(ba: ByteArray, vs: seq<Writable>, order: Order, host: Order, ghost c: seq<byte>, ghost p: nat, ghost enc: seq<byte>)
    requires ba.Valid() && p <= |c| && ba.position == p + |enc| && ba.Contents() == Patch(c, p, enc)
    modifies ba.Repr
    ensures ba.Valid() && fresh(ba.Repr - old(ba.Repr)) && (old(ba.Tight()) ==> ba.Tight())
    ensures ba.position == p + |enc + EncodeAll(vs, order)| && ba.Contents() == Patch(c, p, enc + EncodeAll(vs, order))
    decreases |vs|
  {
    if vs == [] {
      assert enc + EncodeAll(vs, order) == enc;
      return;
    }
    assert enc + EncodeAll(vs, order) == (enc + Encode(vs[0], order)) + EncodeAll(vs[1..], order);
    WriteNext(ba, vs[0], order, host, c, p, enc);
    WriteMore(ba, vs[1..], order, host, c, p, enc + Encode(vs[0], order));
  }

  /** All values, one after the other. */
  method WriteAll(ba: ByteArray, vs: seq<Writable>, order: Order, host: Order)
    requires ba.Valid()
    modifies ba.Repr
    ensures ba.Valid() && fresh(ba.Repr - old(ba.Repr)) && (old(ba.Tight()) ==> ba.Tight())
    ensures ba.position == old(ba.position) + |EncodeAll(vs, order)|
    ensures ba.Contents() == Patch(old(ba.Contents()), old(ba.position), EncodeAll(vs, order))
  {
    PatchNothing(ba.Contents(), ba.position);
    assert [] + EncodeAll(vs, order) == EncodeAll(vs, order);
    WriteMore(ba, vs, order, host, ba.Contents(), ba.position, []);
  }

  predicate KindsOf(kinds: seq<Kind>, vs: seq<Writable>) {
    |kinds| == |vs| && forall i | 0 <= i < |vs| :: kinds[i] == KindOf(vs[i])
  }

  lemma EncodeNonempty(v: Writable, order: Order)
    ensures |Encode(v, order)| > 0
  {
  }

  /** Reading the bytes of a list of values with the matching readers gives the list back and
      leaves nothing to read.  The one exception is a list ending in an empty string when the
      bytes fill the last node to the end. */
  method ReadAll(ba: ByteArray, kinds: seq<Kind>, order: Order, host: Order, ghost vs: seq<Writable>)
      returns (out: seq<Writable>, fault: bool)
    requires ba.Valid() && KindsOf(kinds, vs) && ba.Contents()[ba.position..] == EncodeAll(vs, order)
    modifies ba`position, ba`cur, ba`at, ba`start
    ensures ba.Valid() && ba.Contents() == old(ba.Contents())
    ensures fault <==> vs != [] && IsEmptyText(vs[|vs| - 1]) && ba.size == ba.capacity
    ensures !fault ==> out == vs && ba.GetReadSize() == 0
    decreases |kinds|
  {
    if kinds == [] {
      return [], false;
    }
    var r := ReadNext(ba, kinds[0], order, host, vs[0], EncodeAll(vs[1..], order));
    LastOne(vs, order);
    if r.Fault? {
      return [], true;
    }
    var rest;
    rest, fault := ReadAll(ba, kinds[1..], order, host, vs[1..]);
    out := [r.value] + rest;
  }

  method ReadNext(ba: ByteArray, kind: Kind, order: Order, host: Order, ghost v: Writable, ghost rest: seq<byte>)
      returns (r: ReadResult<Writable>)
    requires ba.Valid() && KindOf(v) == kind
    requires ba.Contents()[ba.position..] == Encode(v, order) + rest
    modifies ba`position, ba`cur, ba`at, ba`start
    ensures ba.Valid() && ba.Contents() == old(ba.Contents()) && ba.Contents()[ba.position..] == rest
    ensures r == if IsEmptyText(v) && ba.position == ba.capacity then Fault else Value(v)
  {
    ghost var from := ba.position;
    r := ReadValue(ba, kind, order, host, v, rest);
    assert ba.Contents()[ba.position..] == ba.Contents()[from..][|Encode(v, order)|..];
  }

  /** Nothing is left to read exactly after the last value. */
  lemma LastOne(vs: seq<Writable>, order: Order)
    requires vs != []
    ensures EncodeAll(vs[1..], order) == [] <==> |vs| == 1
  {
    if |vs| > 1 {
      EncodeNonempty(vs[1], order);
    }
  }

  /** Write a list of values into an empty array, go back to the start and read: on every
      host, in either byte order and at any node size the list comes back, unless it ends in
      an empty string and its bytes are a multiple of the node size. */
  method RoundTrip(baseSize: nat, order: Order, writer: Order, reader: Order, vs: seq<Writable>, kinds: seq<Kind>)
      returns (out: seq<Writable>, fault: bool)
    requires baseSize > 0 && KindsOf(kinds, vs)
    ensures fault <==> vs != [] && IsEmptyText(vs[|vs| - 1]) && |EncodeAll(vs, order)| % baseSize == 0
    ensures !fault ==> out == vs
  {
    var ba := Filled(baseSize, vs, order, writer);
    out, fault := ReadAll(ba, kinds, order, reader, vs);
    if vs != [] {
      EncodeNonempty(vs[0], order);
      FullArray(ba, |EncodeAll(vs, order)|);
    }
  }

  /** A new array with the values written and the position back at 0. */
  method Filled(baseSize: nat, vs: seq<Writable>, order: Order, host: Order) returns (ba: ByteArray)
    requires baseSize > 0
    ensures fresh(ba) && ba.Valid() && ba.Tight() && ba.baseSize == baseSize && ba.position == 0
    ensures ba.Contents() == ba.Contents()[0..] == EncodeAll(vs, order)
  {
    ba := new ByteArray(baseSize);
    WriteAll(ba, vs, order, host);
    PatchEmpty(EncodeAll(vs, order));
    ghost var bytes := ba.Contents();
    var ok := ba.SetPosition(0);
    assert ba.Contents()[..|bytes|] == ba.Contents();
  }

  lemma PatchEmpty(b: seq<byte>)
    ensures Patch([], 0, b) == b
  {
  }

  lemma FullArray(ba: ByteArray, n: nat)
    requires ba.Valid() && ba.Tight() && ba.size == n > 0
    ensures ba.size == ba.capacity <==> n % ba.baseSize == 0
  {
    Full(n, ba.capacity, ba.baseSize, |ba.nodes|);
  }

  /** A tight array is full exactly if its size is a multiple of the node size. */
  lemma Full(size: nat, capacity: nat, base: nat, n: nat)
    requires 0 < size <= capacity && base > 0 && capacity == n * base
    requires n == 1 || capacity < size + base
    ensures size == capacity <==> size % base == 0
  {
    if size == capacity {
      DivMod(size, base, n, 0);
    } else {
      AddMul(n - 1, 1, base);
      DivMod(size, base, n - 1, size - (n - 1) * base);
    }
  }
}
