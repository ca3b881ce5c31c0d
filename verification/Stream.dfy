/**
  SocketStream and the fixed-size loops of Stream, over a peer that delivers and takes bytes
  in pieces of any size.
*/
module Stream {
  import opened ByteArray

  const TwoTo31: nat := 0x8000_0000
  const TwoTo32: nat := 0x1_0000_0000
  const TwoTo63: nat := 0x8000_0000_0000_0000
  const TwoTo64: nat := 0x1_0000_0000_0000_0000

  type size_t = x: nat | x < TwoTo64

  /** The conversion of a size_t to the int that the loops return. */
  function ToInt(x: size_t): int {
    var m := x % TwoTo32;
    if m >= TwoTo31 then m - TwoTo32 else m
  }

  function ToInt64(x: size_t): int {
    if x >= TwoTo63 then x - TwoTo64 else x
  }

  /** The conversions keep the low bits; the int says what was asked for exactly if it can. */
  lemma ToIntExact(x: size_t)
    ensures ToInt(x) == x <==> x < TwoTo31
    ensures -0x8000_0000 <= ToInt(x) < 0x8000_0000 && (x - ToInt(x)) % 0x1_0000_0000 == 0
    ensures -0x8000_0000_0000_0000 <= ToInt64(x) < 0x8000_0000_0000_0000 && (x - ToInt64(x)) % 0x1_0000_0000_0000_0000 == 0
  {
  }

  /** The next call moves nothing, although there is something to move. */
  predicate Refuses(cuts: seq<int>) {
    cuts == [] || cuts[0] <= 0
  }

  /** Every coming call moves something, and there are enough of them for n bytes. */
  predicate Steady(cuts: seq<int>, n: nat) {
    |cuts| >= n && forall i | 0 <= i < |cuts| :: cuts[i] > 0
  }

  /** One connection: the bytes the peer still sends, the bytes it has taken, and for every
      coming call of recv or send the most it will move, or a result that is not positive. */
  class Wire {
    var incoming: seq<byte>
    var outgoing: seq<byte>
    var cuts: seq<int>
    ghost var left: seq<nat>   // how many bytes were still to come after each successful recv
    ghost var refusals: nat    // how many calls have moved nothing although they could

    constructor (incoming: seq<byte>, cuts: seq<int>)
      ensures this.incoming == incoming && this.cuts == cuts && outgoing == [] && left == [] && refusals == 0
    {
      this.incoming, this.cuts, this.outgoing, this.left, this.refusals := incoming, cuts, [], [], 0;
    }

    /** What a reader has made of the stream: if it has failed, then either nothing is left to
        read, or the peer has refused once; otherwise it never has.  And a steady peer is not
        the one that refuses.  Every successful recv has taken at least one byte. */
    twostate predicate Received(failed: bool)
      reads this
    {
      && |old(left)| <= |left| <= |old(left)| + |old(incoming)| - |incoming|
      && refusals == old(refusals) + (if failed && incoming != [] then 1 else 0)
      && (Steady(old(cuts), |old(incoming)|) ==> Steady(cuts, |incoming|) && refusals == old(refusals))
    }

    /** The same of a writer, who has some `unsent` bytes left out of `all`. */
    twostate predicate Sent(failed: bool, unsent: nat, all: nat)
      reads this
    {
      && refusals == old(refusals) + (if failed && unsent > 0 then 1 else 0)
      && (Steady(old(cuts), all) ==> Steady(cuts, unsent) && refusals == old(refusals))
    }

    /** recv */
    method Recv(max: nat) returns (rt: int, data: seq<byte>)
      modifies this`incoming, this`cuts, this`left, this`refusals
      ensures left == old(left) + if rt > 0 then [|incoming|] else []
      ensures rt <= max && (rt <= 0 ==> data == [] && incoming == old(incoming))
      ensures rt > 0 ==> |data| == rt && old(incoming) == data + incoming
      ensures rt > 0 <==> max > 0 && old(incoming) != [] && !Refuses(old(cuts))
      ensures Received(rt <= 0 && max > 0)
      ensures |cuts| <= |old(cuts)| && (rt > 0 ==> |cuts| < |old(cuts)|)
    {
      if Refuses(cuts) && max > 0 && incoming != [] {
        refusals := refusals + 1;
      }
      if cuts == [] || max == 0 {
        return 0, [];
      }
      rt := cuts[0];
      cuts := cuts[1..];
      if rt > max {
        rt := max;
      }
      if rt > |incoming| {
        rt := |incoming|;
      }
      if rt <= 0 {
        return rt, [];
      }
      data := incoming[..rt];
      incoming := incoming[rt..];
      left := left + [|incoming|];
    }

    /** send */
    method Send(data: seq<byte>) returns (rt: int)
      modifies this`outgoing, this`cuts, this`refusals
      ensures rt <= |data| && outgoing == old(outgoing) + if rt > 0 then data[..rt] else []
      ensures rt > 0 <==> data != [] && !Refuses(old(cuts))
      ensures refusals == old(refusals) + if data != [] && rt <= 0 then 1 else 0
      ensures cuts == if data == [] || old(cuts) == [] then old(cuts) else old(cuts)[1..]
    {
      if Refuses(cuts) && data != [] {
        refusals := refusals + 1;
      }
      if cuts == [] || data == [] {
        return 0;
      }
      rt := cuts[0];
      cuts := cuts[1..];
      if rt > |data| {
        rt := |data|;
      }
      if rt > 0 {
        outgoing := outgoing + data[..rt];
      }
    }
  }

  // ---------------------------------------------------------------- SocketStream on a ByteArray

  /** read(ByteArray): the bytes go through the spans of getWriteBuffers, then the position
      moves; the effect is that of writing just those bytes. */
  method ReadInto(w: Wire, ba: ByteArray, length: nat) returns (rt: int)
    requires ba.Valid() && w !in ba.Repr
    modifies w`incoming, w`cuts, w`left, w`refusals, ba.Repr
    ensures ba.Valid() && fresh(ba.Repr - old(ba.Repr)) && rt <= length
    ensures w.Received(rt <= 0 && length > 0)
    ensures var n := if rt > 0 then rt else 0;
            && n <= |old(w.incoming)| && w.incoming == old(w.incoming)[n..]
            && ba.position == old(ba.position) + n
            && ba.Contents() == Patch(old(ba.Contents()), old(ba.position), old(w.incoming)[..n])
  {
    var spans := ba.GetWriteBuffers(length);
    var data;
    rt, data := w.Recv(length);
    if rt > 0 {
      ba.Fill(spans, data, length);
    }
  }

  function Least(a: nat, b: nat): nat {
    if a <= b then a else b
  }

  /** write(ByteArray): the peer gets unread bytes in order, as many as it takes, and the
      position moves behind them. */
  method WriteFrom(w: Wire, ba: ByteArray, length: nat) returns (rt: int)
    requires ba.Valid()
    modifies w`outgoing, w`cuts, w`refusals, ba`position, ba`size, ba`cur, ba`at, ba`start
    ensures ba.Valid() && ba.Contents() == old(ba.Contents())
    ensures rt <= length && rt <= |old(ba.Contents())| - old(ba.position)
    ensures var m := Least(length, |old(ba.Contents())| - old(ba.position));
            w.Sent(rt <= 0, if rt > 0 then m - rt else m, m)
    ensures var n := if rt > 0 then rt else 0;
            && ba.position == old(ba.position) + n
            && w.outgoing == old(w.outgoing) + old(ba.Contents())[old(ba.position)..ba.position]
  {
    var data := Unread(ba, length);
    rt := w.Send(data);
    if rt > 0 {
      SliceStart(ba.Contents(), ba.position, ba.position + |data|, rt);
      var ok := ba.SetPosition(ba.position + rt);
    }
  }

  method Unread(ba: ByteArray, length: nat) returns (data: seq<byte>)
    requires ba.Valid()
    ensures var m := Least(length, |ba.Contents()| - ba.position);
            |data| == m && data == ba.Contents()[ba.position..ba.position + m]
  {
    var spans, n := ba.GetReadBuffers(length);
    data := Gather(spans);
  }

  /** What the socket reads through spans. */
  method Gather(spans: seq<Span>) returns (data: seq<byte>)
    requires forall j | 0 <= j < |spans| :: spans[j].off + spans[j].len <= spans[j].base.Length
    ensures data == SpanBytes(spans)
  {
    data := [];
    var j := 0;
    ghost var rest, whole := SpanBytes(spans), SpanBytes(spans);
    assert spans[0..] == spans;
    while j < |spans|
      invariant j <= |spans| && rest == SpanBytes(spans[j..]) && data + rest == whole
    {
      data, rest := GatherNext(spans, j, data, rest);
      j := j + 1;
    }
  }

  method GatherNext(spans: seq<Span>, j: nat, data0: seq<byte>, ghost rest0: seq<byte>) returns (data: seq<byte>, ghost rest: seq<byte>)
    requires forall k | 0 <= k < |spans| :: spans[k].off + spans[k].len <= spans[k].base.Length
    requires j < |spans| && rest0 == SpanBytes(spans[j..])
    ensures rest == SpanBytes(spans[j + 1..]) && data + rest == data0 + rest0
  {
    var s := spans[j];
    SpanBytesNext(spans, j);
    rest := SpanBytes(spans[j + 1..]);
    Join3(data0, s.base[s.off..s.off + s.len], rest);
    data := data0 + s.base[s.off..s.off + s.len];
  }

  // ---------------------------------------------------------------- Stream

  /** readFixSize into a buffer from index `at` on, whatever the sizes of the single reads:
      either exactly `length` bytes of the stream have arrived, in order, and the result is
      `length` as an int, or the stream was at its end or a read refused before that, and its
      result, zero or negative, is returned. */
  method ReadFixSize(w: Wire, buffer: array<byte>, at: nat, length: size_t) returns (r: int, ghost n: nat)
    requires at + length <= buffer.Length && length < TwoTo63
    modifies w`incoming, w`cuts, w`left, w`refusals, buffer
    ensures n <= length && n <= |old(w.incoming)| && w.incoming == old(w.incoming)[n..]
    ensures Placed(buffer[..], old(buffer[..]), at, n, old(w.incoming))
    ensures w.Received(n < length)
    ensures if n == length then r == ToInt(length) else r <= 0
    ensures Steady(old(w.cuts), |old(w.incoming)|) ==> n == Least(length, |old(w.incoming)|)
  {
    var offset := 0;
    var left := ToInt64(length);
    ghost var before, all := buffer[..], w.incoming;
    while left > 0
      invariant offset + left == length && 0 <= left && offset <= |all| && w.Received(false)
      invariant w.incoming == all[offset..] && Placed(buffer[..], before, at, offset, all)
    {
      ghost var between := buffer[..];
      var len := ReadNext(w, buffer, at + offset, left);
      if len <= 0 {
        return len, offset;
      }
      PlacedNext(buffer[..], between, before, at, offset, len, all);
      offset := offset + len;
      left := left - len;
    }
    return ToInt(length), offset;
  }

  /** The buffer holds what it held before, but for the first n of the bytes from `at` on. */
  predicate Placed(now: seq<byte>, before: seq<byte>, at: nat, n: nat, bytes: seq<byte>) {
    && |now| == |before| && at + n <= |now| && n <= |bytes|
    && now[..at] == before[..at] && now[at + n..] == before[at + n..] && now[at..at + n] == bytes[..n]
  }

  lemma PlacedNext(now: seq<byte>, between: seq<byte>, before: seq<byte>, at: nat, n: nat, k: nat, bytes: seq<byte>)
    requires Placed(between, before, at, n, bytes) && Placed(now, between, at + n, k, bytes[n..])
    ensures Placed(now, before, at, n + k, bytes) && bytes[n..][k..] == bytes[n + k..]
  {
    assert now[..at] == now[..at + n][..at] && now[at..at + n] == now[..at + n][at..];
    assert between[..at + n][at..] == between[at..at + n] && between[..at + n][..at] == between[..at];
    assert now[at..at + n + k] == now[at..at + n] + now[at + n..at + n + k];
    assert before[at + n..][k..] == before[at + n + k..] && between[at + n..][k..] == between[at + n + k..];
  }

  /** One read of that loop, into the buffer from `from` on. */
  method ReadNext(w: Wire, buffer: array<byte>, from: nat, left: nat) returns (len: int)
    requires from + left <= buffer.Length && left > 0
    modifies w`incoming, w`cuts, w`left, w`refusals, buffer
    ensures len <= left && w.Received(len <= 0)
    ensures len <= 0 ==> w.incoming == old(w.incoming) && buffer[..] == old(buffer[..])
    ensures len > 0 ==>
              && len <= |old(w.incoming)| && w.incoming == old(w.incoming)[len..]
              && Placed(buffer[..], old(buffer[..]), from, len, old(w.incoming))
  {
    var data;
    len, data := w.Recv(left);
    if len > 0 {
      forall k | 0 <= k < |data| {
        buffer[from + k] := data[k];
      }
    }
  }

  /** The array holds what it held, with the first n of the bytes `all` written from p on,
      and the rest of them is still to come. */
  ghost predicate Arrived(w: Wire, ba: ByteArray, s: seq<byte>, p: nat, all: seq<byte>, n: nat)
    requires ba.Valid() && p <= |s|
    reads w, ba, ba.nodes, Arrays(ba.nodes)
  {
    n <= |all| && w.incoming == all[n..] && ba.position == p + n && ba.Contents() == Patch(s, p, all[..n])
  }

  method ReadMore(w: Wire, ba: ByteArray, left: nat, ghost s: seq<byte>, ghost p: nat, ghost all: seq<byte>, ghost n: nat)
      returns (len: int)
    requires ba.Valid() && w !in ba.Repr && p <= |s| && Arrived(w, ba, s, p, all, n) && left > 0
    modifies w`incoming, w`cuts, w`left, w`refusals, ba.Repr
    ensures ba.Valid() && fresh(ba.Repr - old(ba.Repr)) && w !in ba.Repr && len <= left
    ensures Arrived(w, ba, s, p, all, if len > 0 then n + len else n)
    ensures w.Received(len <= 0)
  {
    len := ReadInto(w, ba, left);
    if len > 0 {
      PatchNext(s, p, all, n, len);
    } else {
      PatchNext(s, p, all, n, 0);
    }
  }

  /** readFixSize into a ByteArray: on success its contents are those after one write of the
      next `length` bytes of the stream. */
  method ReadFixSizeInto(w: Wire, ba: ByteArray, length: size_t) returns (r: int, n: nat)
    requires ba.Valid() && w !in ba.Repr && length < TwoTo63
    modifies w`incoming, w`cuts, w`left, w`refusals, ba.Repr
    ensures ba.Valid() && n <= length
    ensures Arrived(w, ba, old(ba.Contents()), old(ba.position), old(w.incoming), n)
    ensures w.Received(n < length)
    ensures if n == length then r == ToInt(length) else r <= 0
    ensures Steady(old(w.cuts), |old(w.incoming)|) ==> n == Least(length, |old(w.incoming)|)
  {
    PatchNothing(ba.Contents(), ba.position);
    r, n := ReadUpTo(w, ba, length, ba.Contents(), ba.position, w.incoming);
    if n == length {
      r := ToInt(length);
    }
  }

  /** Its loop; the result is that of the read that has failed, if any. */
  method ReadUpTo(w: Wire, ba: ByteArray, length: size_t, ghost s: seq<byte>, ghost p: nat, ghost all: seq<byte>)
      returns (r: int, n: nat)
    requires ba.Valid() && w !in ba.Repr && length < TwoTo63 && p <= |s| && Arrived(w, ba, s, p, all, 0)
    modifies w`incoming, w`cuts, w`left, w`refusals, ba.Repr
    ensures ba.Valid() && n <= length && Arrived(w, ba, s, p, all, n) && w.Received(n < length) && (n < length ==> r <= 0)
  {
    var left := ToInt64(length);
    r, n := 0, 0;
    while left > 0
      invariant n + left == length && 0 <= left && w.Received(false)
      invariant ba.Valid() && w !in ba.Repr && fresh(ba.Repr - old(ba.Repr)) && Arrived(w, ba, s, p, all, n)
    {
      r := ReadMore(w, ba, left, s, p, all, n);
      if r <= 0 {
        return;
      }
      n := n + r;
      left := left - r;
    }
  }

  /** writeFixSize from a buffer: on success the peer has taken exactly those bytes. */
  method WriteFixSize(w: Wire, buffer: seq<byte>) returns (r: int, ghost n: nat)
    requires |buffer| < TwoTo63
    modifies w`outgoing, w`cuts, w`refusals
    ensures n <= |buffer| && w.outgoing == old(w.outgoing) + buffer[..n]
    ensures w.Sent(n < |buffer|, |buffer| - n, |buffer|)
    ensures Steady(old(w.cuts), |buffer|) ==> n == |buffer|
    ensures if n == |buffer| then r == ToInt(|buffer|) else r <= 0
  {
    var offset := 0;
    var left := ToInt64(|buffer|);
    while left > 0
      invariant offset + left == |buffer| && 0 <= left && w.Sent(false, left, |buffer|)
      invariant w.outgoing == old(w.outgoing) + buffer[..offset]
    {
      var len := w.Send(buffer[offset..]);
      if len <= 0 {
        return len, offset;
      }
      assert buffer[..offset] + buffer[offset..][..len] == buffer[..offset + len];
      offset := offset + len;
      left := left - len;
    }
    return ToInt(|buffer|), offset;
  }

  /** The peer has taken n bytes of the array from p on, and its contents are the same. */
  ghost predicate Departed(w: Wire, ba: ByteArray, s: seq<byte>, p: nat, out: seq<byte>, n: nat)
    requires ba.Valid()
    reads w, ba, ba.nodes, Arrays(ba.nodes)
  {
    p + n <= |s| && ba.Contents() == s && ba.position == p + n && w.outgoing == out + s[p..p + n]
  }

  method WriteMore(w: Wire, ba: ByteArray, left: nat, ghost s: seq<byte>, ghost p: nat, ghost out: seq<byte>, ghost n: nat)
      returns (len: int)
    requires ba.Valid() && Departed(w, ba, s, p, out, n)
    modifies w`outgoing, w`cuts, w`refusals, ba`position, ba`size, ba`cur, ba`at, ba`start
    ensures ba.Valid() && len <= left && Departed(w, ba, s, p, out, if len > 0 then n + len else n)
    ensures var m := Least(left, |s| - p - n); len <= m && w.Sent(len <= 0, if len > 0 then m - len else m, m)
  {
    len := WriteFrom(w, ba, left);
    if len > 0 {
      SliceJoin(s, p, p + n, p + n + len);
      Join3(out, s[p..p + n], s[p + n..p + n + len]);
    }
  }

  /** writeFixSize from a ByteArray: on success the peer has taken the next `length` unread
      bytes.  With fewer unread bytes it ends when they are sent. */
  method WriteFixSizeFrom(w: Wire, ba: ByteArray, length: size_t) returns (r: int, ghost n: nat)
    requires ba.Valid() && length < TwoTo63
    modifies w`outgoing, w`cuts, w`refusals, ba`position, ba`size, ba`cur, ba`at, ba`start
    ensures ba.Valid() && ba.Contents() == old(ba.Contents())
    ensures ba.position == old(ba.position) + n
    ensures var all := Least(length, |old(ba.Contents())| - old(ba.position));
            n <= all && w.Sent(n < all, all - n, all) && (Steady(old(w.cuts), all) ==> n == all)
    ensures w.outgoing == old(w.outgoing) + ba.Contents()[old(ba.position)..ba.position]
    ensures if n == length then r == ToInt(length) else r <= 0
  {
    var left := ToInt64(length);
    n := 0;
    ghost var s, p, out, all := ba.Contents(), ba.position, w.outgoing, Least(length, |ba.Contents()| - ba.position);
    while left > 0
      invariant n + left == length && 0 <= left && n <= all && w.Sent(false, all - n, all)
      invariant ba.Valid() && Departed(w, ba, s, p, out, n)
    {
      var len := WriteMore(w, ba, left, s, p, out, n);
      if len <= 0 {
        return len, n;
      }
      n := n + len;
      left := left - len;
    }
    return ToInt(length), n;
  }

  lemma PatchNext(s: seq<byte>, p: nat, data: seq<byte>, n: nat, k: nat)
    requires p <= |s| && n + k <= |data|
    ensures Patch(Patch(s, p, data[..n]), p + n, data[n..][..k]) == Patch(s, p, data[..n + k])
  {
  }
}
