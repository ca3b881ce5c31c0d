/**
  Chunked bodies (section 7.1 of RFC 9112, without extensions and trailers), and the part of
  the response parser's machine that reads a chunk-size line.
*/
module Chunked {
  import opened Prelude
  import opened ByteArray
  import opened Stream

  const CR: byte := 13
  const LF: byte := 10
  const Semicolon: byte := 59
  const LetterH: byte := 72

  predicate IsHex(b: byte) {
    48 <= b <= 57 || 65 <= b <= 70 || 97 <= b <= 102
  }

  function HexDigit(b: byte): (d: nat)
    requires IsHex(b)
    ensures d < 16
  {
    if b <= 57 then b as nat - 48 else if b <= 70 then b as nat - 55 else b as nat - 87
  }

  predicate AllHex(s: seq<byte>) {
    forall k | 0 <= k < |s| :: IsHex(s[k])
  }

  function HexValue(s: seq<byte>): nat
    requires AllHex(s)
  {
    if s == [] then 0 else HexValue(s[..|s| - 1]) * 16 + HexDigit(s[|s| - 1])
  }

  /** strtol in base 16 on these digits, stored in an int: the long saturates, the int keeps
      its low 32 bits. */
  function SizeOf(digits: seq<byte>): (n: int)
    requires AllHex(digits)
    ensures 0 <= n + TwoTo31 && n < TwoTo31
  {
    var v := HexValue(digits);
    ToInt(if v < TwoTo63 then v else TwoTo63 - 1)
  }

  // ---------------------------------------------------------------- the machine

  /** States 1, 2, 3 and 120 of the machine, 0 for an error; Elsewhere stands for the states
      of the header part and of chunk extensions, which are not modelled. */
  datatype Cs = Start | Digits | AfterCR | Done | Error | Elsewhere

  /** Where the machine stops on these bytes from position i in state cs: its state, the
      number of bytes it has consumed, and the size it has stored, if any. */
  datatype Scanned = Scanned(cs: Cs, used: nat, size: Option<int>)

  function Scan(s: seq<byte>, i: nat, cs: Cs, size: Option<int>): (r: Scanned)
    requires i <= |s| && (cs == Digits ==> AllHex(s[..i])) && cs in {Start, Digits, AfterCR} && (cs == Start ==> i == 0)
    ensures r.used <= |s|
    decreases |s| - i
  {
    if i == |s| then Scanned(cs, i, size)
    else
      var c := s[i];
      match cs
      case Start =>
        if c == LetterH then Scanned(Elsewhere, i, size)
        else if IsHex(c) then Scan(s, i + 1, Digits, size)
        else Scanned(Error, i, size)
      case Digits =>
        if c == LF then Scanned(Done, i + 1, Some(SizeOf(s[..i])))
        else if c == CR then Scan(s, i + 1, AfterCR, Some(SizeOf(s[..i])))
        else if c == Semicolon then Scanned(Elsewhere, i, size)
        else if IsHex(c) then Scan(s, i + 1, Digits, size)
        else Scanned(Error, i, size)
      case AfterCR =>
        if c == LF then Scanned(Done, i + 1, size) else Scanned(Error, i, size)
  }

  function ScanLine(s: seq<byte>): Scanned {
    Scan(s, 0, Start, None)
  }

  /** A chunk-size line: digits and CRLF. */
  function Line(digits: seq<byte>): seq<byte> {
    digits + [CR, LF]
  }

  lemma {:induction false} ScanDigits(s: seq<byte>, i: nat, n: nat, size: Option<int>)
    requires i <= n <= |s| && AllHex(s[..n]) && 0 < i
    ensures Scan(s, i, Digits, size) == Scan(s, n, Digits, size)
    decreases n - i
  {
    if i < n {
      assert IsHex(s[..n][i]);
      ScanDigits(s, i + 1, n, size);
    }
  }

  /** A whole line is consumed, and gives the value of its digits. */
  lemma ScanWhole(digits: seq<byte>, rest: seq<byte>)
    requires digits != [] && AllHex(digits)
    ensures ScanLine(Line(digits) + rest) == Scanned(Done, |digits| + 2, Some(SizeOf(digits)))
  {
    var s, n := Line(digits) + rest, |digits|;
    assert s[..n] == digits;
    assert s[0] == digits[0];
    ScanDigits(s, 1, n, None);
    assert s[n] == CR && s[n + 1] == LF;
  }

  /** The first k bytes of a line, without its end: all consumed, nothing finished. */
  lemma ScanPart(digits: seq<byte>, k: nat)
    requires digits != [] && AllHex(digits) && 0 < k < |digits| + 2
    ensures var r := ScanLine(Line(digits)[..k]);
            r.used == k && (r.cs == Digits || r.cs == AfterCR)
  {
    var s := Line(digits)[..k];
    assert s[0] == digits[0];
    if k <= |digits| {
      assert s == digits[..k];
      assert AllHex(s[..k]);
      ScanDigits(s, 1, k, None);
    } else {
      assert s[..|digits|] == digits;
      ScanDigits(s, 1, |digits|, None);
      assert s[|digits|] == CR;
    }
  }

  // ---------------------------------------------------------------- bodies

  /** One chunk: the text of its size and its data. */
  datatype Chunk = Chunk(digits: seq<byte>, data: seq<byte>)

  predicate SizeText(digits: seq<byte>, n: nat) {
    digits != [] && AllHex(digits) && HexValue(digits) == n
  }

  /** A chunk as the RFC has it, small enough for the int that holds its size with CRLF. */
  predicate Proper(c: Chunk) {
    0 < |c.data| < TwoTo31 - 2 && SizeText(c.digits, |c.data|)
  }

  function EncodeChunk(c: Chunk): seq<byte> {
    Line(c.digits) + c.data + [CR, LF]
  }

  /** All chunks, then the last chunk with its size text for zero and the final CRLF. */
  function EncodeBody(cs: seq<Chunk>, zero: seq<byte>): seq<byte> {
    if cs == [] then Line(zero) + [CR, LF] else EncodeChunk(cs[0]) + EncodeBody(cs[1..], zero)
  }

  function Payload(cs: seq<Chunk>): seq<byte> {
    if cs == [] then [] else cs[0].data + Payload(cs[1..])
  }

  /** The position lies strictly inside one of the chunk-size lines. */
  predicate InLine(cs: seq<Chunk>, zero: seq<byte>, pos: int) {
    if cs == [] then 0 < pos < |zero| + 2
    else 0 < pos < |cs[0].digits| + 2 || InLine(cs[1..], zero, pos - |EncodeChunk(cs[0])|)
  }

  /** The canonical size text: lower-case digits without leading zeros. */
  function Hex(n: nat): (s: seq<byte>)
    ensures s != []
  {
    var d := n % 16;
    var last: byte := if d < 10 then (48 + d) as byte else (87 + d) as byte;
    if n < 16 then [last] else Hex(n / 16) + [last]
  }

  lemma {:induction false} HexRoundTrip(n: nat)
    ensures AllHex(Hex(n)) && HexValue(Hex(n)) == n
  {
    var s := Hex(n);
    if n >= 16 {
      HexRoundTrip(n / 16);
      assert s[..|s| - 1] == Hex(n / 16);
    } else {
      assert s[..|s| - 1] == [];
    }
  }

  // ---------------------------------------------------------------- a line cut in two

  function Pow16(n: nat): nat {
    if n == 0 then 1 else 16 * Pow16(n - 1)
  }

  /** The digits from k on stand for the remainder modulo a power of 16. */
  lemma {:induction false} HexSuffix(s: seq<byte>, k: nat)
    requires AllHex(s) && k <= |s|
    ensures HexValue(s) == HexValue(s[..k]) * Pow16(|s| - k) + HexValue(s[k..])
    ensures HexValue(s[k..]) < Pow16(|s| - k)
    decreases |s| - k
  {
    if k < |s| {
      var n := |s| - 1;
      HexSuffix(s[..n], k);
      assert s[..n][..k] == s[..k] && s[..n][k..] == s[k..][..n - k];
      assert AllHex(s[k..n]);
      HexStep(HexValue(s[..k]), Pow16(n - k), HexValue(s[k..n]), HexDigit(s[n]));
    } else {
      assert s[..k] == s && s[k..] == [];
    }
  }

  lemma HexStep(h: nat, p: nat, v: nat, d: nat)
    requires v < p && d < 16
    ensures (h * p + v) * 16 + d == h * (16 * p) + (v * 16 + d) && v * 16 + d < 16 * p
  {
    assert (h * p) * 16 == h * (16 * p);
  }

  lemma {:induction false} HexZero(s: seq<byte>)
    requires AllHex(s)
    ensures HexValue(s) == 0 <==> forall k | 0 <= k < |s| :: s[k] == 48
  {
    if s != [] {
      HexZero(s[..|s| - 1]);
      assert forall k | 0 <= k < |s| :: s[k] == if k < |s| - 1 then s[..|s| - 1][k] else s[|s| - 1];
    }
  }

  /** The size text has no leading zero. */
  predicate Canonical(digits: seq<byte>) {
    digits != [] && AllHex(digits) && (digits[0] != 48 || |digits| == 1)
  }

  lemma HexCanonical(n: nat)
    ensures Canonical(Hex(n))
  {
    HexRoundTrip(n);
    if n >= 16 {
      HexCanonical(n / 16);
      assert Hex(n)[0] == Hex(n / 16)[0];
      if |Hex(n / 16)| == 1 {
        assert Hex(n / 16)[..0] == [];
        assert HexValue(Hex(n / 16)) == HexDigit(Hex(n / 16)[0]);
      }
    }
  }

  /** Without its first k digits the text stands for the same number exactly if they are all
      zeros, and otherwise for a smaller one; so a canonical text never does. */
  lemma SuffixValue(digits: seq<byte>, k: nat)
    requires AllHex(digits) && k < |digits|
    ensures HexValue(digits[k..]) <= HexValue(digits)
    ensures HexValue(digits[k..]) == HexValue(digits) <==> forall j | 0 <= j < k :: digits[j] == 48
    ensures Canonical(digits) ==> (HexValue(digits[k..]) == HexValue(digits) <==> k == 0)
  {
    HexSuffix(digits, k);
    HexZero(digits[..k]);
    var h, p := HexValue(digits[..k]), Pow16(|digits| - k);
    assert forall j | 0 <= j < k :: digits[..k][j] == digits[j];
    if h > 0 {
      MulAtLeast(h, p);
    }
  }

  /** What `execute` makes of one piece of a size line when the pieces before it, of p bytes
      in all, are gone: it starts over.  The rest of the digits up to the end of the line is
      taken for the whole size; a piece that begins behind the digits is an error. */
  lemma ScanPiece(digits: seq<byte>, tail: seq<byte>, p: nat, m: nat)
    requires digits != [] && AllHex(digits) && p < |Line(digits)| && 0 < m && p + m <= |Line(digits) + tail|
    ensures var r := ScanLine((Line(digits) + tail)[p..p + m]);
            if p >= |digits| then r.cs == Error
            else if p + m < |Line(digits)| then r.used == m && (r.cs == Digits || r.cs == AfterCR)
            else AllHex(digits[p..]) && r == Scanned(Done, |Line(digits)| - p, Some(SizeOf(digits[p..])))
  {
    var s := (Line(digits) + tail)[p..p + m];
    if p >= |digits| {
      assert s[0] == if p == |digits| then CR else LF;
    } else if p + m < |Line(digits)| {
      assert s == Line(digits[p..])[..m];
      ScanPart(digits[p..], m);
    } else {
      assert s == Line(digits[p..]) + tail[..p + m - |Line(digits)|];
      ScanWhole(digits[p..], tail[..p + m - |Line(digits)|]);
    }
  }

  // ---------------------------------------------------------------- what the digits mean

  const LowerDigits: string := "0123456789abcdef"
  const UpperDigits: string := "0123456789ABCDEF"

  /** The byte is one of the two spellings of the digit d. */
  predicate Spells(b: byte, d: nat) {
    d < 16 && (b as int == LowerDigits[d] as int || b as int == UpperDigits[d] as int)
  }

  /** The number with these digits, the most significant first. */
  function Numeral(ds: seq<nat>): nat {
    if ds == [] then 0 else ds[0] * Pow16(|ds| - 1) + Numeral(ds[1..])
  }

  lemma DigitMeans(b: byte, d: nat)
    requires Spells(b, d)
    ensures IsHex(b) && HexDigit(b) == d
  {
    assert LowerDigits[0] == '0' && LowerDigits[9] == '9' && LowerDigits[10] == 'a' && LowerDigits[15] == 'f';
    assert UpperDigits[0] == '0' && UpperDigits[9] == '9' && UpperDigits[10] == 'A' && UpperDigits[15] == 'F';
  }

  /** The digits are exactly these characters. */
  lemma HexMeans(b: byte)
    ensures IsHex(b) <==> exists d :: Spells(b, d)
  {
    if IsHex(b) {
      var d := if b <= 57 then b as nat - 48 else if b <= 70 then b as nat - 55 else b as nat - 87;
      assert Spells(b, d);
    }
    if d :| Spells(b, d) {
      DigitMeans(b, d);
    }
  }

  /** A size text stands for the number its digits make in base 16, in lower case, upper case or
      both mixed. */
  lemma {:induction false} HexMeansNumeral(s: seq<byte>, ds: seq<nat>)
    requires |s| == |ds| && forall k | 0 <= k < |s| :: Spells(s[k], ds[k])
    ensures AllHex(s) && HexValue(s) == Numeral(ds)
    decreases |s|
  {
    forall k | 0 <= k < |s| ensures IsHex(s[k]) {
      DigitMeans(s[k], ds[k]);
    }
    if s != [] {
      HexMeansNumeral(s[1..], ds[1..]);
      HexSuffix(s, 1);
      DigitMeans(s[0], ds[0]);
      assert s[..1] == [s[0]] && s[..1][..0] == [];
      assert HexValue(s[..1]) == HexDigit(s[0]);
    }
  }

  /** The int stored for a size: the number itself if it fits, else its low 32 bits, and -1 if the
      long has saturated. */
  lemma SizeMeans(digits: seq<byte>)
    requires AllHex(digits)
    ensures HexValue(digits) < 0x8000_0000 ==> SizeOf(digits) == HexValue(digits)
    ensures HexValue(digits) < 0x8000_0000_0000_0000 ==> (HexValue(digits) - SizeOf(digits)) % 0x1_0000_0000 == 0
    ensures HexValue(digits) >= 0x8000_0000_0000_0000 ==> SizeOf(digits) == -1
  {
    var v := HexValue(digits);
    ToIntExact(if v < TwoTo63 then v else TwoTo63 - 1);
  }

  // ---------------------------------------------------------------- lines that are none

  /** A line must begin with a digit; other bytes than digits, CR, LF and ';' behind the digits,
      and anything but LF behind the CR, are errors. */
  lemma ScanRejects(digits: seq<byte>, b: byte, rest: seq<byte>)
    requires AllHex(digits)
    ensures !IsHex(b) && b != 72 ==> ScanLine([b] + rest) == Scanned(Error, 0, None)
    ensures digits != [] && !IsHex(b) && b != 13 && b != 10 && b != 59 ==>
              ScanLine(digits + [b] + rest) == Scanned(Error, |digits|, None)
    ensures digits != [] && b != 10 ==>
              ScanLine(digits + [13, b] + rest) == Scanned(Error, |digits| + 1, Some(SizeOf(digits)))
  {
    if digits != [] {
      var s, n := digits + [b] + rest, |digits|;
      assert s[..n] == digits && s[0] == digits[0] && s[n] == b;
      ScanDigits(s, 1, n, None);
      var q := digits + [13, b] + rest;
      assert q[..n] == digits && q[0] == digits[0] && q[n] == 13 && q[n + 1] == b;
      ScanDigits(q, 1, n, None);
    }
  }
}
