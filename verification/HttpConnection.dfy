/**
  The bodies of HTTP messages as HttpConnection::recvResponse and HttpSession::recvRequest
  put them together from the bytes left in the header buffer and the stream.
*/
module HttpConnection {
  import opened Prelude
  import opened ByteArray
  import opened Stream
  import opened Chunked

  /** HttpResponseParser on chunk-size lines. */
  class Parser {
    var cs: Cs
    var contentLen: int
    var chunksDone: bool

    constructor ()
    {
      cs, contentLen, chunksDone := Start, -1, false;
    }

    /** execute with chunk set: the machine starts over, runs over data[..len] and the bytes
        it has not consumed move to the front. */
    method Execute(data: array<byte>, len: nat) returns (nparse: nat)
      requires len < data.Length && data[len] == 0
      modifies this, data
      ensures var r := ScanLine(old(data[..len]));
              && nparse == r.used <= len && cs == r.cs
              && contentLen == (if r.size.Some? then r.size.value else -1)
              && 0 <= contentLen + TwoTo31 && contentLen < TwoTo31
              && (r.size.Some? ==> chunksDone == (r.size.value <= 0))
              && data[..len - nparse] == old(data[nparse..len])
    {
      cs, contentLen, chunksDone := Start, -1, false;
      var p, stop := 0, false;
      ghost var s, size: Option<int> := data[..len], None;
      while p < len && !stop
        invariant p <= len && data[..] == old(data[..])
        invariant cs == Digits ==> AllHex(s[..p])
        invariant !stop ==> cs in {Start, Digits, AfterCR} && (cs == Start ==> p == 0) && ScanLine(s) == Scan(s, p, cs, size)
        invariant stop ==> ScanLine(s) == Scanned(cs, p, size)
        invariant contentLen == (if size.Some? then size.value else -1) && 0 <= contentLen + TwoTo31 && contentLen < TwoTo31
        invariant size.Some? ==> chunksDone == (size.value <= 0)
        decreases len - p, !stop
      {
        var c := data[p];
        assert c == s[p] && data[..p] == s[..p];
        match cs {
          case Start =>
            if c == LetterH {
              cs, stop := Elsewhere, true;
            } else if IsHex(c) {
              cs, p := Digits, p + 1;
            } else {
              cs, stop := Error, true;
            }
          case Digits =>
            if c == LF || c == CR {
              contentLen := SizeOf(data[..p]);
              chunksDone := contentLen <= 0;
              size := Some(contentLen);
              cs, stop, p := if c == LF then Done else AfterCR, c == LF, p + 1;
            } else if c == Semicolon {
              cs, stop := Elsewhere, true;
            } else if IsHex(c) {
              p := p + 1;
            } else {
              cs, stop := Error, true;
            }
          case AfterCR =>
            if c == LF {
              cs, stop, p := Done, true, p + 1;
            } else {
              cs, stop := Error, true;
            }
        }
      }
      nparse := p;
      var rest := ShiftOut(data, len, p);
      assert s[p..] == old(data[p..len]);
    }
  }

  /** How the reading of a body ends.  Going: it does not.  LengthError and Overrun are what
      std::string makes of a negative or too large count; NotModelled: the machine has left
      the states of a plain size line. */
  datatype Outcome =
    | Going | Body(bytes: seq<byte>) | ReadFailed | ParseError | BufferFull | LengthError | Overrun | NotModelled

  /** No successful recv since number `from` has ended strictly inside the first `line` of
      the `total` bytes that were to come then. */
  ghost predicate NotInside(left: seq<nat>, from: nat, total: nat, line: nat) {
    forall j | from <= j < |left| :: !(0 < total - left[j] < line)
  }

  /** A whole size line is ahead, and so far no piece of input has ended inside it. */
  ghost predicate Whole(s: seq<byte>, digits: seq<byte>, tail: seq<byte>, len0: nat, left: seq<nat>, from: nat) {
    && s == Line(digits) + tail
    && !(0 < len0 < |Line(digits)|)
    && NotInside(left, from, |s|, |Line(digits)|)
  }

  lemma WholeBefore(s: seq<byte>, digits: seq<byte>, tail: seq<byte>, len0: nat, left: seq<nat>, x: nat, from: nat)
    requires Whole(s, digits, tail, len0, left + [x], from)
    ensures Whole(s, digits, tail, len0, left, from)
  {
    forall j | from <= j < |left| ensures !(0 < |s| - left[j] < |Line(digits)|) {
      assert (left + [x])[j] == left[j];
    }
  }

  /** A size line is ahead, and `start` bytes of it are gone with earlier pieces of input. */
  predicate LineAhead(s: seq<byte>, digits: seq<byte>, tail: seq<byte>, start: nat, ahead: seq<byte>) {
    s == Line(digits) + tail && start < |Line(digits)| && ahead == s[start..]
  }

  /** The size read is that of the digits from `start` on, where the last piece of input that
      ended inside the line ended; the whole size exactly if no piece did. */
  ghost predicate SizeRead(s: seq<byte>, digits: seq<byte>, tail: seq<byte>, len0: nat, left: seq<nat>, from: nat,
                           ahead: seq<byte>, n: int, done: bool, start: nat)
  {
    && start < |digits| && AllHex(digits[start..])
    && n == SizeOf(digits[start..]) && (done <==> n <= 0) && ahead == tail
    && (start == 0 <==> Whole(s, digits, tail, len0, left, from))
  }

  lemma SizeOfSmall(digits: seq<byte>)
    requires AllHex(digits) && HexValue(digits) < TwoTo31
    ensures SizeOf(digits) == HexValue(digits)
  {
  }

  /** For a size text without leading zero, then: exactly if no piece of input ended inside. */
  lemma SizeIfWhole(s: seq<byte>, digits: seq<byte>, tail: seq<byte>, len0: nat, left: seq<nat>, from: nat,
                    ahead: seq<byte>, n: int, done: bool, start: nat)
    requires SizeRead(s, digits, tail, len0, left, from, ahead, n, done, start)
    requires Canonical(digits) && HexValue(digits) < TwoTo31
    ensures n == HexValue(digits) <==> Whole(s, digits, tail, len0, left, from)
    ensures n <= HexValue(digits)
  {
    SuffixValue(digits, start);
    SizeOfSmall(digits[start..]);
  }

  /** What one call of the machine makes of the bytes at hand. */
  lemma Piece(s: seq<byte>, digits: seq<byte>, tail: seq<byte>, start: nat, ahead: seq<byte>, at: seq<byte>, coming: seq<byte>)
    requires LineAhead(s, digits, tail, start, ahead) && at + coming == ahead && at != [] && digits != [] && AllHex(digits)
    ensures var r := ScanLine(at);
            if start >= |digits| then r.cs == Error
            else if |s| - |coming| < |Line(digits)|
            then r.used == |at| && (r.cs == Digits || r.cs == AfterCR) && LineAhead(s, digits, tail, |s| - |coming|, coming)
            else AllHex(digits[start..]) && r == Scanned(Done, |Line(digits)| - start, Some(SizeOf(digits[start..])))
                 && at[r.used..] + coming == tail
  {
    assert at == s[start..start + |at|];
    assert coming == s[start + |at|..];
    ScanPiece(digits, tail, start, |at|);
    if |s| - |coming| >= |Line(digits)| {
      assert at[|Line(digits)| - start..] + coming == (at + coming)[|Line(digits)| - start..] == tail;
    }
  }

  lemma ScanProgress(s: seq<byte>)
    requires s != [] && ScanLine(s).cs !in {Error, Elsewhere}
    ensures ScanLine(s).used > 0
  {
    ScanUsed(s, 1, Digits, None);
  }

  lemma {:induction false} ScanUsed(s: seq<byte>, i: nat, cs: Cs, size: Option<int>)
    requires i <= |s| && (cs == Digits ==> AllHex(s[..i])) && cs in {Digits, AfterCR}
    ensures Scan(s, i, cs, size).used >= i
    decreases |s| - i
  {
    if i < |s| {
      if cs == Digits && IsHex(s[i]) {
        ScanUsed(s, i + 1, Digits, size);
      } else if cs == Digits && s[i] == CR {
        ScanUsed(s, i + 1, AfterCR, Some(SizeOf(s[..i])));
      }
    }
  }

  /** The record of reads has only grown, and its end is where the stream stands. */
  predicate Follows(left: seq<nat>, left0: seq<nat>, now: nat, before: nat) {
    && |left| >= |left0| && left[..|left0|] == left0
    && (|left| > |left0| ==> left[|left| - 1] == now)
    && (|left| == |left0| ==> now == before)
  }

  lemma FollowsOn(left: seq<nat>, mid: seq<nat>, left0: seq<nat>, now: nat, between: nat, before: nat)
    requires Follows(mid, left0, between, before) && Follows(left, mid, now, between)
    ensures Follows(left, left0, now, before)
  {
    assert left[..|mid|][..|left0|] == left[..|left0|];
  }

  method Append(w: Wire, data: array<byte>, len: nat, max: nat) returns (rt: int)
    requires len + max < data.Length && max > 0
    modifies w`incoming, w`cuts, w`left, w`refusals, data
    ensures rt <= max && |w.cuts| <= |old(w.cuts)| && (rt > 0 ==> |w.cuts| < |old(w.cuts)|)
    ensures rt <= 0 ==> w.incoming == old(w.incoming) && w.left == old(w.left)
    ensures rt > 0 ==> data[..len + rt] + w.incoming == old(data[..len]) + old(w.incoming)
    ensures rt > 0 ==> w.left == old(w.left) + [|w.incoming|]
    ensures w.Received(rt <= 0)
    ensures Follows(w.left, old(w.left), |w.incoming|, |old(w.incoming)|)
  {
    var bytes;
    rt, bytes := w.Recv(max);
    forall k | 0 <= k < |bytes| {
      data[len + k] := bytes[k];
    }
    assert rt > 0 ==> data[..len + rt] == old(data[..len]) + bytes;
  }

  /** The inner loop: read until a size line has been parsed.  With a size line ahead, the
      size read is that of its digits if no piece of input ends inside the line, and only then;
      and it can fail only if the peer refuses. */
  method ReadSize(w: Wire, parser: Parser, data: array<byte>, buffSize: nat, len0: nat, ghost digits: seq<byte>, ghost tail: seq<byte>)
      returns (r: Outcome, len: nat)
    requires data.Length == buffSize + 1 && 0 < buffSize && len0 <= buffSize
    requires digits != [] && AllHex(digits)
    modifies w`incoming, w`cuts, w`left, w`refusals, parser, data
    ensures r in {Going, ReadFailed, ParseError, BufferFull, NotModelled}
    ensures r == Going ==> len < buffSize && |w.cuts| <= |old(w.cuts)| && (|w.cuts| == |old(w.cuts)| ==> len < len0)
    ensures r == Going ==> 0 <= parser.contentLen + TwoTo31 && parser.contentLen < TwoTo31
    ensures Follows(w.left, old(w.left), |w.incoming|, |old(w.incoming)|) && w.Received(r == ReadFailed)
    ensures var s := old(data[..len0]) + old(w.incoming);
            Whole(s, digits, tail, len0, w.left, |old(w.left)|) ==> r == Going || (r == ReadFailed && w.refusals > old(w.refusals))
    ensures var s := old(data[..len0]) + old(w.incoming);
            s == Line(digits) + tail && r == Going ==>
              exists start :: SizeRead(s, digits, tail, len0, w.left, |old(w.left)|, data[..len] + w.incoming,
                                       parser.contentLen, parser.chunksDone, start)
    ensures var s := old(data[..len0]) + old(w.incoming);
            s == Line(digits) + tail && r == Going && Canonical(digits) && HexValue(digits) < TwoTo31 ==>
              (parser.contentLen == HexValue(digits) <==> Whole(s, digits, tail, len0, w.left, |old(w.left)|))
  {
    len := len0;
    var begin, finished := true, false;
    ghost var s, start: nat := data[..len0] + w.incoming, 0;
    while !finished
      invariant len <= buffSize && (!begin ==> len < buffSize)
      invariant Follows(w.left, old(w.left), |w.incoming|, |old(w.incoming)|) && w.Received(false)
      invariant finished ==> 0 <= parser.contentLen + TwoTo31 && parser.contentLen < TwoTo31
      invariant begin ==> !finished && len == len0 && w.left == old(w.left) && w.cuts == old(w.cuts)
      invariant begin ==> data[..len] + w.incoming == s
      invariant s == Line(digits) + tail && !finished ==> LineAhead(s, digits, tail, start, data[..len] + w.incoming)
      invariant s == Line(digits) + tail && !finished ==> (begin <==> start == 0) && (!begin ==> len == 0)
      invariant !begin && !finished ==> !Whole(s, digits, tail, len0, w.left, |old(w.left)|)
      invariant s == Line(digits) + tail && finished ==>
                  SizeRead(s, digits, tail, len0, w.left, |old(w.left)|, data[..len] + w.incoming, parser.contentLen, parser.chunksDone, start)
      invariant |w.cuts| <= |old(w.cuts)| && (!begin && |w.cuts| == |old(w.cuts)| ==> len < len0)
      decreases |w.cuts|, begin, !finished
    {
      ghost var first, now, between := begin, w.left, |w.incoming|;
      r, len, finished := SizePass(w, parser, data, buffSize, begin, len, s, digits, tail, len0, old(w.left), start);
      FollowsOn(w.left, now, old(w.left), |w.incoming|, between, |old(w.incoming)|);
      if r != Going {
        return;
      }
      start := if finished || |s| < |w.incoming| then start else |s| - |w.incoming|;
      begin := false;
    }
    r := Going;
    if s == Line(digits) + tail && Canonical(digits) && HexValue(digits) < TwoTo31 {
      SizeIfWhole(s, digits, tail, len0, w.left, |old(w.left)|, data[..len] + w.incoming, parser.contentLen, parser.chunksDone, start);
    }
  }

  /** The read of a pass: none if the first pass finds bytes left over. */
  method Fetch(w: Wire, data: array<byte>, buffSize: nat, begin: bool, at: nat) returns (ok: bool, len: nat)
    requires data.Length == buffSize + 1 && 0 < buffSize && at <= buffSize && (!begin ==> at < buffSize)
    modifies w`incoming, w`cuts, w`left, w`refusals, data
    ensures Follows(w.left, old(w.left), |w.incoming|, |old(w.incoming)|) && w.Received(!ok)
    ensures |w.cuts| <= |old(w.cuts)|
    ensures !ok ==> w.incoming == old(w.incoming) && w.left == old(w.left) && (begin ==> at == 0)
    ensures ok ==> 0 < len <= buffSize && data[..len] + w.incoming == old(data[..at]) + old(w.incoming)
    ensures ok ==> if begin && at > 0 then len == at && w.left == old(w.left) && w.cuts == old(w.cuts)
                   else w.left == old(w.left) + [|w.incoming|] && |w.cuts| < |old(w.cuts)|
  {
    ok, len := true, at;
    if !begin || len == 0 {
      var rt := Append(w, data, len, buffSize - len);
      if rt <= 0 {
        return false, len;
      }
      len := len + rt;
    }
  }

  /** One pass of that loop. */
  method SizePass(w: Wire, parser: Parser, data: array<byte>, buffSize: nat, begin: bool, at: nat, ghost s: seq<byte>,
                  ghost digits: seq<byte>, ghost tail: seq<byte>, ghost len0: nat, ghost left0: seq<nat>, ghost start: nat)
      returns (r: Outcome, len: nat, finished: bool)
    requires data.Length == buffSize + 1 && 0 < buffSize && at <= buffSize && digits != [] && AllHex(digits)
    requires !begin ==> at < buffSize
    requires |w.left| >= |left0| && (begin ==> at == len0 && w.left == left0 && data[..at] + w.incoming == s)
    requires s == Line(digits) + tail ==>
               LineAhead(s, digits, tail, start, data[..at] + w.incoming) && (begin <==> start == 0) && (!begin ==> at == 0)
    requires !begin ==> !Whole(s, digits, tail, len0, w.left, |left0|)
    modifies w`incoming, w`cuts, w`left, w`refusals, parser, data
    ensures r in {Going, ReadFailed, ParseError, BufferFull, NotModelled}
    ensures r == Going ==> len < buffSize && |w.cuts| <= |old(w.cuts)| && (!begin ==> |w.cuts| < |old(w.cuts)|)
    ensures r == Going ==> (|w.cuts| == |old(w.cuts)| ==> len < at)
    ensures r == Going ==> 0 <= parser.contentLen + TwoTo31 && parser.contentLen < TwoTo31
    ensures Follows(w.left, old(w.left), |w.incoming|, |old(w.incoming)|) && w.Received(r == ReadFailed)
    ensures Whole(s, digits, tail, len0, w.left, |left0|) ==>
              (r == Going && finished) || (r == ReadFailed && w.refusals > old(w.refusals))
    ensures s == Line(digits) + tail && r == Going && !finished ==>
              len == 0 && |w.incoming| < |s| && LineAhead(s, digits, tail, |s| - |w.incoming|, data[..len] + w.incoming)
    ensures s == Line(digits) + tail && r == Going && finished ==>
              SizeRead(s, digits, tail, len0, w.left, |left0|, data[..len] + w.incoming, parser.contentLen, parser.chunksDone, start)
  {
    finished := false;
    ghost var left := w.left;
    var ok;
    ok, len := Fetch(w, data, buffSize, begin, at);
    if !begin && Whole(s, digits, tail, len0, w.left, |left0|) {
      WholeBefore(s, digits, tail, len0, left, |w.incoming|, |left0|);
    }
    if !ok {
      return ReadFailed, len, false;
    }
    r, len, finished := ParseOnce(parser, data, buffSize, len, s, digits, tail, start, w.incoming);
  }

  /** The parse of a pass: what execute makes of the bytes at hand, and what is left of them. */
  method ParseOnce(parser: Parser, data: array<byte>, buffSize: nat, at: nat, ghost s: seq<byte>, ghost digits: seq<byte>,
                   ghost tail: seq<byte>, ghost start: nat, ghost coming: seq<byte>)
      returns (r: Outcome, len: nat, finished: bool)
    requires data.Length == buffSize + 1 && 0 < at <= buffSize && digits != [] && AllHex(digits)
    requires s == Line(digits) + tail ==> LineAhead(s, digits, tail, start, data[..at] + coming)
    modifies parser, data
    ensures r in {Going, ParseError, BufferFull, NotModelled}
    ensures r == Going ==> len < at && 0 <= parser.contentLen + TwoTo31 && parser.contentLen < TwoTo31
    ensures s == Line(digits) + tail && start < |digits| && |s| - |coming| >= |Line(digits)| ==> r == Going && finished
    ensures s == Line(digits) + tail && r == Going && !finished ==>
              len == 0 && |coming| < |s| && LineAhead(s, digits, tail, |s| - |coming|, coming)
    ensures s == Line(digits) + tail && r == Going && finished ==>
              && start < |digits| && |s| - |coming| >= |Line(digits)| && AllHex(digits[start..])
              && parser.contentLen == SizeOf(digits[start..]) && (parser.chunksDone <==> parser.contentLen <= 0)
              && data[..len] + coming == tail
  {
    len, finished := at, false;
    data[len] := 0;
    ghost var before := data[..len];
    if s == Line(digits) + tail {
      Piece(s, digits, tail, start, before + coming, before, coming);
    }
    var nparse := parser.Execute(data, len);
    if parser.cs == Elsewhere {
      return NotModelled, len, false;
    }
    if parser.cs == Error {
      return ParseError, len, false;
    }
    ScanProgress(before);
    len := len - nparse;
    if len == buffSize {
      return BufferFull, len, false;
    }
    finished := parser.cs == Done;
    r := Going;
  }

  /** content_len + 2 in 32-bit arithmetic. */
  function PlusTwo(n: int): int {
    if n + 2 >= TwoTo31 then n + 2 - TwoTo32 else n + 2
  }

  /** The data of a chunk and its CRLF: from the buffer if all of it is there, otherwise the
      buffer and as many reads as it takes.  For a size that is not negative and fits with its
      CRLF, exactly that many bytes go to the body and two more are skipped. */
  method TakeChunk(w: Wire, data: array<byte>, buffSize: nat, n: int, len0: nat, body0: seq<byte>)
      returns (r: Outcome, len: nat, body: seq<byte>)
    requires data.Length == buffSize + 1 && 0 < buffSize && len0 <= buffSize
    requires 0 <= n + TwoTo31 && n < TwoTo31
    modifies w`incoming, w`cuts, w`left, w`refusals, data
    ensures r in {Going, ReadFailed, LengthError, Overrun}
    ensures r == Going ==> len <= buffSize && |w.cuts| <= |old(w.cuts)| && (|w.cuts| == |old(w.cuts)| ==> len <= len0)
    ensures Follows(w.left, old(w.left), |w.incoming|, |old(w.incoming)|) && w.Received(r == ReadFailed)
    ensures 0 <= n < TwoTo31 - 2 ==>
              var s := old(data[..len0]) + old(w.incoming);
              && (r == Going || (r == ReadFailed && (n + 2 <= |s| ==> w.refusals > old(w.refusals))))
              && (r == Going ==> n + 2 <= |s| && data[..len] + w.incoming == s[n + 2..] && body == body0 + s[..n])
  {
    if PlusTwo(n) <= len0 {
      body := body0;
      if n < 0 {
        return LengthError, len0, body;
      }
      if n + 2 > len0 {
        return Overrun, len0, body;
      }
      body := body + data[..n];
      len := ShiftOut(data, len0, n + 2);
      return Going, len, body;
    }
    r, body := ReadRest(w, data, buffSize, n + 2, len0, body0);
    len := 0;
    if r == Going {
      if |body| < 2 {
        return LengthError, len, body;
      }
      body := body[..|body| - 2];
    }
  }

  /** memmove of the bytes from k on to the front. */
  method ShiftOut(data: array<byte>, len0: nat, k: nat) returns (len: nat)
    requires k <= len0 <= data.Length
    modifies data
    ensures len == len0 - k && data[..len] == old(data[..len0])[k..]
  {
    forall j | 0 <= j < len0 - k {
      data[j] := data[k + j];
    }
    len := len0 - k;
  }

  /** The `want` bytes of a chunk and its CRLF, the first len0 of them from the buffer. */
  method ReadRest(w: Wire, data: array<byte>, buffSize: nat, want: int, len0: nat, body0: seq<byte>)
      returns (r: Outcome, body: seq<byte>)
    requires data.Length == buffSize + 1 && 0 < buffSize && len0 <= buffSize && want > len0
    modifies w`incoming, w`cuts, w`left, w`refusals, data
    ensures r in {Going, ReadFailed}
    ensures r == Going ==> |w.cuts| < |old(w.cuts)|
    ensures Follows(w.left, old(w.left), |w.incoming|, |old(w.incoming)|) && w.Received(r == ReadFailed)
    ensures r == ReadFailed && want <= len0 + |old(w.incoming)| ==> w.refusals > old(w.refusals)
    ensures r == Going ==>
              var s := old(data[..len0]) + old(w.incoming);
              want <= |s| && w.incoming == s[want..] && body == body0 + s[..want]
  {
    ghost var s, left0, before := data[..len0] + w.incoming, w.left, |w.incoming|;
    body := body0 + data[..len0];
    var got := len0;
    while want - got > 0
      invariant len0 <= got <= want && |w.cuts| <= |old(w.cuts)| && (len0 < got ==> |w.cuts| < |old(w.cuts)|)
      invariant Follows(w.left, left0, |w.incoming|, before) && w.Received(false)
      invariant got <= |s| && w.incoming == s[got..] && body == body0 + s[..got]
      decreases want - got
    {
      ghost var now, between := w.left, |w.incoming|;
      r, got, body := ReadPiece(w, data, buffSize, want, got, body, body0, s);
      FollowsOn(w.left, now, left0, |w.incoming|, between, before);
      if r != Going {
        return;
      }
    }
    r := Going;
  }

  /** One pass of that loop: the next read goes to the body. */
  method ReadPiece(w: Wire, data: array<byte>, buffSize: nat, want: nat, at: nat, body1: seq<byte>,
                   ghost body0: seq<byte>, ghost s: seq<byte>)
      returns (r: Outcome, got: nat, body: seq<byte>)
    requires data.Length == buffSize + 1 && 0 < buffSize && at < want
    requires at <= |s| && w.incoming == s[at..] && body1 == body0 + s[..at]
    modifies w`incoming, w`cuts, w`left, w`refusals, data
    ensures r in {Going, ReadFailed} && |w.cuts| <= |old(w.cuts)|
    ensures Follows(w.left, old(w.left), |w.incoming|, |old(w.incoming)|) && w.Received(r == ReadFailed)
    ensures r == ReadFailed ==> w.incoming == old(w.incoming)
    ensures r == Going ==> at < got <= want && |w.cuts| < |old(w.cuts)|
    ensures r == Going ==> got <= |s| && w.incoming == s[got..] && body == body0 + s[..got]
  {
    got, body := at, body1;
    var rt := Append(w, data, 0, if want - at > buffSize then buffSize else want - at);
    if rt <= 0 {
      return ReadFailed, got, body;
    }
    NextBytes(s, at, data[..rt], w.incoming);
    body := body + data[..rt];
    got := at + rt;
    r := Going;
  }

  lemma NextBytes(s: seq<byte>, n: nat, piece: seq<byte>, rest: seq<byte>)
    requires n <= |s| && piece + rest == s[n..]
    ensures n + |piece| <= |s| && s[..n] + piece == s[..n + |piece|] && rest == s[n + |piece|..]
  {
    assert s == s[..n] + (piece + rest);
  }

  // ---------------------------------------------------------------- the chunked branch

  /** Every successful recv from number `from` on, and the header buffer, have ended outside
      the chunk-size lines of the body. */
  ghost predicate Clean(cs: seq<Chunk>, zero: seq<byte>, len0: nat, total: nat, left: seq<nat>, from: nat) {
    && !InLine(cs, zero, len0)
    && forall j | from <= j < |left| :: !InLine(cs, zero, total - left[j])
  }

  function EncodeChunks(cs: seq<Chunk>): seq<byte> {
    if cs == [] then [] else EncodeChunk(cs[0]) + EncodeChunks(cs[1..])
  }

  lemma {:induction false} InLineSuffix(pre: seq<Chunk>, cs: seq<Chunk>, zero: seq<byte>, pos: int)
    requires InLine(cs, zero, pos - |EncodeChunks(pre)|)
    ensures InLine(pre + cs, zero, pos)
  {
    if pre == [] {
      assert pre + cs == cs;
    } else {
      assert (pre + cs)[1..] == pre[1..] + cs;
      InLineSuffix(pre[1..], cs, zero, pos - |EncodeChunk(pre[0])|);
    }
  }

  lemma {:induction false} EncodeChunksAppend(a: seq<Chunk>, b: seq<Chunk>)
    ensures EncodeChunks(a + b) == EncodeChunks(a) + EncodeChunks(b)
  {
    if a == [] {
      assert a + b == b;
    } else {
      assert (a + b)[1..] == a[1..] + b;
      EncodeChunksAppend(a[1..], b);
    }
  }

  lemma {:induction false} EncodeBodyAppend(a: seq<Chunk>, b: seq<Chunk>, zero: seq<byte>)
    ensures EncodeBody(a + b, zero) == EncodeChunks(a) + EncodeBody(b, zero)
  {
    if a == [] {
      assert a + b == b;
    } else {
      assert (a + b)[1..] == a[1..] + b;
      EncodeBodyAppend(a[1..], b, zero);
    }
  }

  lemma {:induction false} PayloadAppend(a: seq<Chunk>, b: seq<Chunk>)
    ensures Payload(a + b) == Payload(a) + Payload(b)
  {
    if a == [] {
      assert a + b == b;
    } else {
      assert (a + b)[1..] == a[1..] + b;
      PayloadAppend(a[1..], b);
    }
  }

  /** The next size line of the body, what follows it, and the data it announces. */
  function NextDigits(cs: seq<Chunk>, i: nat, zero: seq<byte>): seq<byte>
    requires i <= |cs|
  {
    if i < |cs| then cs[i].digits else zero
  }

  function NextData(cs: seq<Chunk>, i: nat): seq<byte>
    requires i <= |cs|
  {
    if i < |cs| then cs[i].data else []
  }

  /** What is left after i chunks; nothing after the last chunk. */
  function Rest(cs: seq<Chunk>, i: nat, zero: seq<byte>): seq<byte> {
    if i <= |cs| then EncodeBody(cs[i..], zero) else []
  }

  lemma RestIs(cs: seq<Chunk>, i: nat, zero: seq<byte>)
    requires i <= |cs|
    ensures Rest(cs, i, zero) == Line(NextDigits(cs, i, zero)) + (NextData(cs, i) + [CR, LF] + Rest(cs, i + 1, zero))
  {
    if i < |cs| {
      assert cs[i..][1..] == cs[i + 1..];
    }
  }

  /** Clean input for the whole body is clean input for the next line. */
  lemma NextClean(cs: seq<Chunk>, i: nat, zero: seq<byte>, len0: nat, len: nat, total: nat, s: nat, left: seq<nat>, from: nat, now: nat)
    requires i <= |cs| && from <= now <= |left| && Clean(cs, zero, len0, total, left, from)
    requires total == |EncodeChunks(cs[..i])| + s
    requires len > 0 ==> !InLine(cs[i..], zero, len)
    ensures !(0 < len < |Line(NextDigits(cs, i, zero))|)
    ensures NotInside(left, now, s, |Line(NextDigits(cs, i, zero))|)
  {
    forall j | now <= j < |left| ensures !(0 < s - left[j] < |Line(NextDigits(cs, i, zero))|) {
      assert cs[..i] + cs[i..] == cs;
      if InLine(cs[i..], zero, s - left[j]) {
        InLineSuffix(cs[..i], cs[i..], zero, total - left[j]);
      }
    }
  }

  /** These bytes are a chunked body and what follows it. */
  ghost predicate IsBody(s: seq<byte>, cs: seq<Chunk>, zero: seq<byte>, after: seq<byte>) {
    (forall i | 0 <= i < |cs| :: Proper(cs[i])) && SizeText(zero, 0) && s == EncodeBody(cs, zero) + after
  }

  /** Where the decoding stands after i chunks (|cs| + 1: after the last chunk). */
  ghost predicate Decoded(cs: seq<Chunk>, i: nat, zero: seq<byte>, after: seq<byte>, ahead: seq<byte>, body: seq<byte>) {
    && i <= |cs| + 1
    && ahead == Rest(cs, i, zero) + after
    && body == Payload(cs[..if i <= |cs| then i else |cs|])
  }

  lemma BodyStart(s: seq<byte>, cs: seq<Chunk>, zero: seq<byte>, after: seq<byte>)
    requires IsBody(s, cs, zero, after)
    ensures Decoded(cs, 0, zero, after, s, [])
  {
    assert cs[0..] == cs;
  }

  lemma LengthAhead(cs: seq<Chunk>, i: nat, zero: seq<byte>)
    requires i <= |cs|
    ensures cs[..i] + cs[i..] == cs && |EncodeBody(cs, zero)| == |EncodeChunks(cs[..i])| + |Rest(cs, i, zero)|
  {
    assert cs[..i] + cs[i..] == cs;
    EncodeBodyAppend(cs[..i], cs[i..], zero);
  }

  lemma LastEndOutside(cs: seq<Chunk>, zero: seq<byte>, len0: nat, total: nat, incoming: nat, left: seq<nat>, left0: seq<nat>)
    requires len0 <= total && Follows(left, left0, incoming, total - len0) && Clean(cs, zero, len0, total, left, |left0|)
    ensures !InLine(cs, zero, total - incoming)
  {
  }

  /** The end of the bytes at hand is where the last read ended, so not inside a line. */
  lemma EndsOutside(s: seq<byte>, cs: seq<Chunk>, i: nat, zero: seq<byte>, after: seq<byte>, len0: nat, len: nat,
                    ahead: nat, incoming: nat, left: seq<nat>, left0: seq<nat>)
    requires IsBody(s, cs, zero, after) && i <= |cs| && ahead == |Rest(cs, i, zero) + after| && ahead == len + incoming
    requires len0 <= |s| && Follows(left, left0, incoming, |s| - len0)
    requires Clean(cs, zero, len0, |s|, left, |left0|)
    ensures !InLine(cs[i..], zero, len)
    ensures |s| == |EncodeChunks(cs[..i])| + ahead
  {
    LengthAhead(cs, i, zero);
    LastEndOutside(cs, zero, len0, |s|, incoming, left, left0);
    OutsideSuffix(cs, i, zero, |s| - incoming);
  }

  lemma OutsideSuffix(cs: seq<Chunk>, i: nat, zero: seq<byte>, pos: int)
    requires i <= |cs| && !InLine(cs, zero, pos)
    ensures !InLine(cs[i..], zero, pos - |EncodeChunks(cs[..i])|)
  {
    if InLine(cs[i..], zero, pos - |EncodeChunks(cs[..i])|) {
      assert cs[..i] + cs[i..] == cs;
      InLineSuffix(cs[..i], cs[i..], zero, pos);
    }
  }

  /** From here on the next line can be read whole. */
  lemma ReadyForLine(s: seq<byte>, cs: seq<Chunk>, i: nat, zero: seq<byte>, after: seq<byte>, len0: nat, len: nat,
                     ahead: seq<byte>, body: seq<byte>, incoming: nat, now: seq<nat>, left: seq<nat>, left0: seq<nat>)
    requires IsBody(s, cs, zero, after) && i <= |cs| && Decoded(cs, i, zero, after, ahead, body)
    requires |ahead| == len + incoming && len0 <= |s|
    requires Follows(now, left0, incoming, |s| - len0) && |now| <= |left| && left[..|now|] == now
    requires Clean(cs, zero, len0, |s|, left, |left0|)
    ensures Whole(ahead, NextDigits(cs, i, zero), NextData(cs, i) + [CR, LF] + Rest(cs, i + 1, zero) + after, len, left, |now|)
  {
    CleanBefore(cs, zero, len0, |s|, now, left, |left0|);
    EndsOutside(s, cs, i, zero, after, len0, len, |ahead|, incoming, now, left0);
    NextClean(cs, i, zero, len0, len, |s|, |ahead|, left, |left0|, |now|);
    LineFirst(cs, i, zero, after);
  }

  lemma LineFirst(cs: seq<Chunk>, i: nat, zero: seq<byte>, after: seq<byte>)
    requires i <= |cs|
    ensures Rest(cs, i, zero) + after
            == Line(NextDigits(cs, i, zero)) + (NextData(cs, i) + [CR, LF] + Rest(cs, i + 1, zero) + after)
  {
    RestIs(cs, i, zero);
    Join3(Line(NextDigits(cs, i, zero)), NextData(cs, i) + [CR, LF] + Rest(cs, i + 1, zero), after);
  }

  lemma NextSize(cs: seq<Chunk>, i: nat, zero: seq<byte>)
    requires (forall k | 0 <= k < |cs| :: Proper(cs[k])) && SizeText(zero, 0) && i <= |cs|
    ensures var d := NextDigits(cs, i, zero);
            d != [] && AllHex(d) && SizeOf(d) == |NextData(cs, i)| < TwoTo31 - 2 && (SizeOf(d) <= 0 <==> i == |cs|)
  {
  }

  /** The data of the next chunk has been taken. */
  lemma Taken(cs: seq<Chunk>, i: nat, zero: seq<byte>, after: seq<byte>, ahead: seq<byte>, body: seq<byte>, n: nat)
    requires i <= |cs| && body == Payload(cs[..i]) && n == |NextData(cs, i)|
    requires ahead == NextData(cs, i) + [CR, LF] + Rest(cs, i + 1, zero) + after
    ensures n + 2 <= |ahead| && Decoded(cs, i + 1, zero, after, ahead[n + 2..], body + ahead[..n])
  {
    var d := NextData(cs, i);
    assert ahead == d + [CR, LF] + (Rest(cs, i + 1, zero) + after);
    assert ahead[..n] == d && ahead[n + 2..] == Rest(cs, i + 1, zero) + after;
    if i < |cs| {
      assert cs[..i + 1] == cs[..i] + [cs[i]];
      PayloadAppend(cs[..i], [cs[i]]);
      assert Payload([cs[i]]) == d + Payload([]);
    }
  }

  /** The state at the head of the loop, if the input has been a clean chunked body so far. */
  ghost predicate OnTrack(s: seq<byte>, cs: seq<Chunk>, i: nat, zero: seq<byte>, after: seq<byte>, len0: nat,
                          left: seq<nat>, from: nat, ahead: seq<byte>, body: seq<byte>)
  {
    IsBody(s, cs, zero, after) && Clean(cs, zero, len0, |s|, left, from) ==> Decoded(cs, i, zero, after, ahead, body)
  }

  lemma CleanBefore(cs: seq<Chunk>, zero: seq<byte>, len0: nat, total: nat, now: seq<nat>, left: seq<nat>, from: nat)
    requires Clean(cs, zero, len0, total, left, from) && |now| <= |left| && left[..|now|] == now
    ensures Clean(cs, zero, len0, total, now, from)
  {
    forall j | from <= j < |now| ensures !InLine(cs, zero, total - now[j]) {
      assert left[j] == now[j];
    }
  }

  /** Before a size line: on clean input the line is ahead, whole. */
  lemma NextLineAhead(s: seq<byte>, cs: seq<Chunk>, i: nat, zero: seq<byte>, after: seq<byte>, len0: nat, len: nat,
                  ahead: seq<byte>, body: seq<byte>, incoming: nat, now: seq<nat>, left: seq<nat>, left0: seq<nat>)
    requires i <= |cs| && |ahead| == len + incoming && len0 <= |s|
    requires Follows(now, left0, incoming, |s| - len0) && |now| <= |left| && left[..|now|] == now
    requires OnTrack(s, cs, i, zero, after, len0, now, |left0|, ahead, body)
    requires IsBody(s, cs, zero, after) && Clean(cs, zero, len0, |s|, left, |left0|)
    ensures Whole(ahead, NextDigits(cs, i, zero), NextData(cs, i) + [CR, LF] + Rest(cs, i + 1, zero) + after, len, left, |now|)
    ensures body == Payload(cs[..i])
  {
    CleanBefore(cs, zero, len0, |s|, now, left, |left0|);
    ReadyForLine(s, cs, i, zero, after, len0, len, ahead, body, incoming, now, left, left0);
  }

  /** After it: its data are ahead, and its size says how many. */
  ghost predicate DataAhead(s: seq<byte>, cs: seq<Chunk>, i: nat, zero: seq<byte>, after: seq<byte>, len0: nat,
                            left: seq<nat>, from: nat, ahead: seq<byte>, body: seq<byte>, n: int, done: bool)
    requires i <= |cs|
  {
    IsBody(s, cs, zero, after) && Clean(cs, zero, len0, |s|, left, from) ==>
      && ahead == NextData(cs, i) + [CR, LF] + Rest(cs, i + 1, zero) + after && body == Payload(cs[..i])
      && n == |NextData(cs, i)| < TwoTo31 - 2 && (done <==> i == |cs|)
  }

  method NextLine(w: Wire, parser: Parser, data: array<byte>, buffSize: nat, lenAt: nat, ghost bodyAt: seq<byte>,
                  ghost s: seq<byte>, ghost cs: seq<Chunk>, ghost i: nat, ghost zero: seq<byte>, ghost after: seq<byte>,
                  ghost len0: nat, ghost left0: seq<nat>)
      returns (r: Outcome, len: nat)
    requires data.Length == buffSize + 1 && 0 < buffSize && lenAt <= buffSize && len0 <= |s| && i <= |cs|
    requires Follows(w.left, left0, |w.incoming|, |s| - len0)
    requires OnTrack(s, cs, i, zero, after, len0, w.left, |left0|, data[..lenAt] + w.incoming, bodyAt)
    modifies w`incoming, w`cuts, w`left, w`refusals, parser, data
    ensures r in {Going, ReadFailed, ParseError, BufferFull, NotModelled}
    ensures r == Going ==> len < buffSize && |w.cuts| <= |old(w.cuts)| && (|w.cuts| == |old(w.cuts)| ==> len < lenAt)
    ensures r == Going ==> 0 <= parser.contentLen + TwoTo31 && parser.contentLen < TwoTo31
    ensures Follows(w.left, left0, |w.incoming|, |s| - len0) && w.Received(r == ReadFailed)
    ensures r == Going ==>
              DataAhead(s, cs, i, zero, after, len0, w.left, |left0|, data[..len] + w.incoming, bodyAt, parser.contentLen, parser.chunksDone)
    ensures IsBody(s, cs, zero, after) && Clean(cs, zero, len0, |s|, w.left, |left0|) ==>
              r == Going || (r == ReadFailed && w.refusals > old(w.refusals))
  {
    ghost var digits := NextDigits(cs, i, zero);
    ghost var tail := NextData(cs, i) + [CR, LF] + Rest(cs, i + 1, zero) + after;
    ghost var ahead, incoming, now := data[..lenAt] + w.incoming, |w.incoming|, w.left;
    if !(digits != [] && AllHex(digits)) {
      digits := [48];
    }
    r, len := ReadSize(w, parser, data, buffSize, lenAt, digits, tail);
    FollowsOn(w.left, now, left0, |w.incoming|, incoming, |s| - len0);
    if IsBody(s, cs, zero, after) && Clean(cs, zero, len0, |s|, w.left, |left0|) {
      NextLineAhead(s, cs, i, zero, after, len0, lenAt, ahead, bodyAt, incoming, now, w.left, left0);
      NextSize(cs, i, zero);
      if r == Going {
        WholeSize(ahead, digits, tail, lenAt, w.left, |now|, data[..len] + w.incoming, parser.contentLen, parser.chunksDone);
      }
    }
  }

  /** A size line that was read whole yields the size of all its digits. */
  lemma WholeSize(s: seq<byte>, digits: seq<byte>, tail: seq<byte>, len0: nat, left: seq<nat>, from: nat,
                  ahead: seq<byte>, n: int, done: bool)
    requires exists start :: SizeRead(s, digits, tail, len0, left, from, ahead, n, done, start)
    requires Whole(s, digits, tail, len0, left, from) && AllHex(digits)
    ensures n == SizeOf(digits) && (done <==> n <= 0) && ahead == tail
  {
    var start :| SizeRead(s, digits, tail, len0, left, from, ahead, n, done, start);
    assert digits[0..] == digits;
  }

  /** One pass of the outer loop: a size line, then the data it announces. */
  method ReadChunk(w: Wire, parser: Parser, data: array<byte>, buffSize: nat, lenAt: nat, bodyAt: seq<byte>,
                   ghost s: seq<byte>, ghost cs: seq<Chunk>, ghost i: nat, ghost zero: seq<byte>, ghost after: seq<byte>,
                   ghost len0: nat, ghost left0: seq<nat>)
      returns (r: Outcome, len: nat, body: seq<byte>)
    requires data.Length == buffSize + 1 && 0 < buffSize && lenAt <= buffSize && len0 <= |s| && i <= |cs|
    requires Follows(w.left, left0, |w.incoming|, |s| - len0)
    requires OnTrack(s, cs, i, zero, after, len0, w.left, |left0|, data[..lenAt] + w.incoming, bodyAt)
    modifies w`incoming, w`cuts, w`left, w`refusals, parser, data
    ensures !r.Body?
    ensures r == Going ==> len <= buffSize && |w.cuts| <= |old(w.cuts)| && (|w.cuts| == |old(w.cuts)| ==> len < lenAt)
    ensures Follows(w.left, left0, |w.incoming|, |s| - len0) && w.Received(r == ReadFailed)
    ensures IsBody(s, cs, zero, after) && Clean(cs, zero, len0, |s|, w.left, |left0|) ==>
              && (r == Going || (r == ReadFailed && w.refusals > old(w.refusals)))
              && (r == Going ==> Decoded(cs, i + 1, zero, after, data[..len] + w.incoming, body) && (parser.chunksDone <==> i == |cs|))
  {
    r, len := NextLine(w, parser, data, buffSize, lenAt, bodyAt, s, cs, i, zero, after, len0, left0);
    body := bodyAt;
    if r != Going {
      return;
    }
    ghost var mid, ahead, between := w.left, data[..len] + w.incoming, |w.incoming|;
    r, len, body := TakeChunk(w, data, buffSize, parser.contentLen, len, body);
    FollowsOn(w.left, mid, left0, |w.incoming|, between, |s| - len0);
    if IsBody(s, cs, zero, after) && Clean(cs, zero, len0, |s|, w.left, |left0|) {
      CleanBefore(cs, zero, len0, |s|, mid, w.left, |left0|);
      Taken(cs, i, zero, after, ahead, bodyAt, |NextData(cs, i)|);
    }
  }

  /** The chunked branch of recvResponse.  If a chunked body is ahead and neither the header
      buffer nor any read ends strictly inside one of its size lines, then the result is
      exactly the data of the chunks, and what follows the body has not been touched, unless
      the peer refuses a read of bytes that are there; a steady peer never does. */
  method RecvChunked(w: Wire, data: array<byte>, buffSize: nat, len0: nat,
                     ghost cs: seq<Chunk>, ghost zero: seq<byte>, ghost after: seq<byte>)
      returns (r: Outcome, ghost len: nat)
    requires data.Length == buffSize + 1 && 0 < buffSize && len0 <= buffSize
    modifies w`incoming, w`cuts, w`left, w`refusals, data
    ensures r != Going && len <= buffSize
    ensures w.Received(r == ReadFailed)
    ensures var s := old(data[..len0]) + old(w.incoming);
            IsBody(s, cs, zero, after) && Clean(cs, zero, len0, |s|, w.left, |old(w.left)|) ==>
              if w.refusals > old(w.refusals) then r == ReadFailed
              else r == Body(Payload(cs)) && data[..len] + w.incoming == after
  {
    ghost var s, left0, i: nat := data[..len0] + w.incoming, w.left, 0;
    if IsBody(s, cs, zero, after) {
      BodyStart(s, cs, zero, after);
    }
    var parser := new Parser();
    var n: nat, body: seq<byte> := len0, [];
    var done := false;
    while !done
      invariant n <= buffSize && (!done ==> i <= |cs|)
      invariant Follows(w.left, left0, |w.incoming|, |s| - len0) && w.Received(false)
      invariant OnTrack(s, cs, i, zero, after, len0, w.left, |left0|, data[..n] + w.incoming, body)
      invariant done ==> (IsBody(s, cs, zero, after) && Clean(cs, zero, len0, |s|, w.left, |left0|) ==> i == |cs| + 1)
      decreases |w.cuts|, n, !done
    {
      r, n, body := ReadChunk(w, parser, data, buffSize, n, body, s, cs, i, zero, after, len0, left0);
      len := n;
      if r != Going {
        len := 0;
        return;
      }
      done := parser.chunksDone;
      i := if done || i < |cs| then i + 1 else i;
    }
    len := n;
    r := Body(body);
    assert cs[..|cs|] == cs;
  }

  /** A position lies inside a size line exactly if some chunks, or all of them, end before it and
      it is less than the length of the next line, CRLF included, behind their end. */
  lemma {:induction false} InLineMeans(cs: seq<Chunk>, zero: seq<byte>, pos: int)
    ensures InLine(cs, zero, pos) <==>
              exists i :: 0 <= i <= |cs| && BehindChunks(cs, i, zero, pos)
    decreases |cs|
  {
    if cs == [] {
      assert EncodeChunks([]) == [];
      assert InLine(cs, zero, pos) <==> BehindChunks(cs, 0, zero, pos);
    } else {
      var rest, next := cs[1..], pos - |EncodeChunk(cs[0])|;
      InLineMeans(rest, zero, next);
      assert cs[..0] == [];
      assert BehindChunks(cs, 0, zero, pos) <==> 0 < pos < |cs[0].digits| + 2;
      forall i | 1 <= i <= |cs| ensures BehindChunks(cs, i, zero, pos) <==> BehindChunks(rest, i - 1, zero, next) {
        assert cs[..i][0] == cs[0] && cs[..i][1..] == rest[..i - 1];
        assert NextDigits(cs, i, zero) == NextDigits(rest, i - 1, zero);
      }
      if i :| 0 <= i <= |rest| && BehindChunks(rest, i, zero, next) {
        assert BehindChunks(cs, i + 1, zero, pos);
      }
    }
  }

  predicate BehindChunks(cs: seq<Chunk>, i: nat, zero: seq<byte>, pos: int)
    requires i <= |cs|
  {
    0 < pos - |EncodeChunks(cs[..i])| < |NextDigits(cs, i, zero)| + 2
  }

  /** One body, byte by byte: a chunk of four bytes and the last chunk, all of it in the buffer. */
  method OneChunk() returns (r: Outcome)
    ensures r == Body([87, 105, 107, 105])
  {
    var bytes: seq<byte> := [52, 13, 10, 87, 105, 107, 105, 13, 10, 48, 13, 10, 13, 10];
    var data := new byte[21];
    forall k | 0 <= k < |bytes| {
      data[k] := bytes[k];
    }
    assert data[..14] == bytes;
    var w := new Wire([], []);
    ghost var cs, zero := [Chunk([52], [87, 105, 107, 105])], [48];
    OneChunkIs(cs, zero, bytes);
    assert bytes + w.incoming == bytes;
    ghost var len;
    r, len := RecvChunked(w, data, 20, 14, cs, zero, []);
  }

  lemma OneChunkIs(cs: seq<Chunk>, zero: seq<byte>, bytes: seq<byte>)
    requires cs == [Chunk([52], [87, 105, 107, 105])] && zero == [48]
    requires bytes == [52, 13, 10, 87, 105, 107, 105, 13, 10, 48, 13, 10, 13, 10]
    ensures IsBody(bytes, cs, zero, []) && Clean(cs, zero, 14, 14, [], 0)
    ensures Payload(cs) == [87, 105, 107, 105]
  {
    assert cs[1..] == [];
    var d: seq<byte> := [52];
    assert d[..0] == [] && HexValue(d) == HexValue(d[..0]) * 16 + 4;
    assert zero[..0] == [] && HexValue(zero) == HexValue(zero[..0]) * 16;
    assert EncodeBody([], zero) == [48, 13, 10, 13, 10];
    assert EncodeChunk(cs[0]) == [52, 13, 10, 87, 105, 107, 105, 13, 10];
    assert EncodeBody(cs, zero) == EncodeChunk(cs[0]) + EncodeBody(cs[1..], zero);
    assert Payload(cs) == cs[0].data + Payload(cs[1..]);
    assert InLine(cs, zero, 14) <==> 0 < 14 < 3 || InLine(cs[1..], zero, 14 - 9);
  }

  // ---------------------------------------------------------------- bodies of known length

  /** The Content-Length branch of recvResponse, and the same code in recvRequest.  A body
      that is delivered is exactly the first `length` of the buffered bytes and the stream.
      None is delivered exactly if the stream ended or the peer refused before all of it had
      arrived, or if the number of bytes read from the stream, as an int, is not positive:
      so with fewer than 2^31 of them a steady peer's body always arrives. */
  method RecvSized(w: Wire, data: array<byte>, offset: nat, contentLength: size_t) returns (r: Outcome, ghost n: nat)
    requires offset <= data.Length
    modifies w`incoming, w`cuts, w`left, w`refusals
    ensures r.Body? || r.ReadFailed?
    ensures var s, length := old(data[..offset]) + old(w.incoming), ToInt64(contentLength);
            && n <= |old(w.incoming)| && w.incoming == old(w.incoming)[n..]
            && (length <= 0 ==> r == Body([]))
            && (0 < length <= offset ==> r == Body(s[..length]) && n == 0)
            && (length > offset && length > 0 ==>
                  && n <= length - offset
                  && (r.Body? ==> length <= |s| && r == Body(s[..length]) && n == length - offset)
                  && (r.ReadFailed? <==> n < length - offset || ToInt(length - offset) <= 0))
    ensures w.Received(n < ToInt64(contentLength) - offset)
    ensures var s, length := old(data[..offset]) + old(w.incoming), ToInt64(contentLength);
            Steady(old(w.cuts), |old(w.incoming)|) && 0 < length <= |s| && length - offset < TwoTo31 ==> r == Body(s[..length])
  {
    var length := ToInt64(contentLength);
    n := 0;
    if length <= 0 {
      return Body([]), 0;
    }
    ghost var w0 := w.incoming;
    var len := if length >= offset then offset else length;
    var body := StartBody(data, len, length);
    length := length - offset;
    if length > 0 {
      var rt;
      rt, n := ReadFixSize(w, body, len, length);
      if rt <= 0 {
        return ReadFailed, n;
      }
      TwoParts(body[..], data[..len], w0, n);
    }
    r := Body(body[..]);
  }

  /** A body of `size` bytes that begins with the first len buffered ones. */
  method StartBody(data: array<byte>, len: nat, size: nat) returns (body: array<byte>)
    requires len <= size && len <= data.Length
    ensures fresh(body) && body.Length == size && body[..len] == data[..len]
  {
    body := new byte[size];
    forall k | 0 <= k < len {
      body[k] := data[k];
    }
  }

  lemma TwoParts(body: seq<byte>, first: seq<byte>, coming: seq<byte>, n: nat)
    requires n <= |coming| && |body| == |first| + n && body[..|first|] == first && body[|first|..] == coming[..n]
    ensures body == (first + coming)[..|body|]
  {
  }
}
