/**
  ByteArray: a linked list of fixed-size nodes with a cursor, which behaves as one flat
  sequence of bytes.
*/
module ByteArray {

  newtype byte = x: int | 0 <= x < 256

  class Node {
    const ptr: array<byte>
    var next: Node?

    constructor (size: nat)
      ensures fresh(ptr) && ptr.Length == size && next == null
    {
      ptr := new byte[size];
      next := null;
    }
  }

  // ---------------------------------------------------------------- the flat view

  ghost function Arrays(ns: seq<Node>): set<array<byte>> {
    set n | n in ns :: n.ptr
  }

  /** All rows of bytes, one after the other. */
  ghost function Flat(rows: seq<seq<byte>>): seq<byte> {
    if rows == [] then [] else rows[0] + Flat(rows[1..])
  }

  /** s with b written over it from position p on, extended where necessary. */
  function Patch(s: seq<byte>, p: nat, b: seq<byte>): (r: seq<byte>)
    requires p <= |s|
    ensures |r| == if p + |b| > |s| then p + |b| else |s|
  {
    var n := if p + |b| > |s| then p + |b| else |s|;
    seq(n, k requires 0 <= k < n => if p <= k < p + |b| then b[k - p] else s[k])
  }

  lemma Join3(a: seq<byte>, b: seq<byte>, c: seq<byte>)
    ensures a + (b + c) == (a + b) + c
  {
  }

  lemma {:induction false} FlatAppend(a: seq<seq<byte>>, b: seq<seq<byte>>)
    ensures Flat(a + b) == Flat(a) + Flat(b)
  {
    var c := a + b;
    if a == [] {
      assert c == b;
    } else {
      FlatAppend(a[1..], b);
      assert c != [] && c[0] == a[0] && c[1..] == a[1..] + b;
      Join3(a[0], Flat(a[1..]), Flat(b));
    }
  }

  lemma {:induction false} FlatGrown(rows: seq<seq<byte>>, n: nat)
    requires n <= |rows|
    ensures Flat(rows) == Flat(rows[..n]) + Flat(rows[n..])
  {
    assert rows == rows[..n] + rows[n..];
    FlatAppend(rows[..n], rows[n..]);
  }

  lemma {:induction false} FlatLength(rows: seq<seq<byte>>, base: nat)
    requires forall i | 0 <= i < |rows| :: |rows[i]| == base
    ensures |Flat(rows)| == |rows| * base
  {
    if rows != [] {
      FlatLength(rows[1..], base);
      assert |rows| * base == base + (|rows| - 1) * base;
    }
  }

  /** The bytes around row i. */
  lemma FlatSplit(rows: seq<seq<byte>>, i: nat, base: nat)
    requires i < |rows| && forall j | 0 <= j < |rows| :: |rows[j]| == base
    ensures Flat(rows) == Flat(rows[..i]) + rows[i] + Flat(rows[i + 1..])
    ensures |Flat(rows[..i])| == i * base && |Flat(rows)| == |rows| * base
  {
    FlatGrown(rows, i);
    assert rows[i..][1..] == rows[i + 1..];
    FlatLength(rows[..i], base);
    FlatLength(rows, base);
  }

  lemma FlatReplace(rows: seq<seq<byte>>, i: nat, row: seq<byte>)
    requires i < |rows|
    ensures Flat(rows[i := row]) == Flat(rows[..i]) + row + Flat(rows[i + 1..])
  {
    assert rows[i := row] == rows[..i] + ([row] + rows[i + 1..]);
    FlatAppend(rows[..i], [row] + rows[i + 1..]);
    assert ([row] + rows[i + 1..])[1..] == rows[i + 1..];
  }

  /** Patching one row patches one stretch of the flat bytes. */
  lemma FlatStore(rows: seq<seq<byte>>, i: nat, base: nat, off: nat, chunk: seq<byte>)
    requires i < |rows| && (forall j | 0 <= j < |rows| :: |rows[j]| == base) && off + |chunk| <= base
    ensures i * base + base <= |Flat(rows)|
    ensures Flat(rows[i := Patch(rows[i], off, chunk)]) == Patch(Flat(rows), i * base + off, chunk)
  {
    FlatSplit(rows, i, base);
    FlatReplace(rows, i, Patch(rows[i], off, chunk));
    MulLe(i + 1, |rows|, base);
    AddMul(i, 1, base);
    StoreStep(Flat(rows), Flat(rows[i := Patch(rows[i], off, chunk)]), Flat(rows[..i]), rows[i], Flat(rows[i + 1..]),
              off, chunk, i * base + off);
  }

  lemma StoreStep(f: seq<byte>, g: seq<byte>, a: seq<byte>, m: seq<byte>, c: seq<byte>, off: nat, b: seq<byte>, p: nat)
    requires f == a + m + c && off + |b| <= |m| && g == a + Patch(m, off, b) + c && p == |a| + off
    ensures g == Patch(f, p, b)
  {
    PatchInside(a, m, c, off, b);
  }

  /** A stretch inside one row is a stretch of the flat bytes. */
  lemma FlatRead(rows: seq<seq<byte>>, i: nat, base: nat, off: nat, k: nat)
    requires i < |rows| && (forall j | 0 <= j < |rows| :: |rows[j]| == base) && off + k <= base
    ensures i * base + off + k <= |Flat(rows)|
    ensures rows[i][off..off + k] == Flat(rows)[i * base + off..i * base + off + k]
  {
    FlatSplit(rows, i, base);
    MulLe(i + 1, |rows|, base);
    AddMul(i, 1, base);
    var a, c := Flat(rows[..i]), Flat(rows[i + 1..]);
    assert (a + rows[i] + c)[|a| + off..|a| + off + k] == rows[i][off..off + k];
  }

  lemma MulAtLeast(d: int, b: int)
    requires d >= 1 && b >= 0
    ensures d * b >= b
  {
    assert d * b == (d - 1) * b + b;
  }

  lemma AddMul(a: int, b: int, c: int)
    ensures (a + b) * c == a * c + b * c
  {
  }

  lemma NoMultiple(d: int, b: int)
    requires b >= 0 && -b < d * b < b
    ensures d == 0
  {
    if d >= 1 {
      MulAtLeast(d, b);
    } else if d <= -1 {
      MulAtLeast(-d, b);
    }
  }

  lemma DivMod(p: nat, base: nat, i: nat, off: nat)
    requires base > 0 && p == i * base + off && off < base
    ensures p / base == i && p % base == off
  {
    var q, r := p / base, p % base;
    assert p == q * base + r;
    assert (q - i) * base == off - r;
    NoMultiple(q - i, base);
  }

  lemma MulLe(n: nat, q: nat, b: nat)
    ensures n <= q ==> n * b <= q * b
  {
    if n < q {
      MulAtLeast(q - n, b);
      assert q * b == (q - n) * b + n * b;
    }
  }

  /** The node a position below the capacity falls into. */
  lemma DivBound(p: nat, base: nat, n: nat)
    requires base > 0 && p < n * base
    ensures p / base < n && p == (p / base) * base + p % base
  {
    MulLe(n, p / base, base);
  }

  /** Writing the next k bytes of buf behind the first n. */
  lemma PatchMore(s: seq<byte>, p: nat, buf: seq<byte>, n: nat, k: nat)
    requires n + k <= |buf| && p + |buf| <= |s|
    ensures Patch(Patch(s, p, buf[..n]), p + n, buf[n..n + k]) == Patch(s, p, buf[..n + k])
  {
  }

  lemma SubSlice(s: seq<byte>, n: nat, a: nat, b: nat)
    requires a <= b <= n <= |s|
    ensures s[..n][a..b] == s[a..b]
  {
  }

  lemma SliceStart(s: seq<byte>, a: nat, b: nat, k: nat)
    requires a <= b <= |s| && a + k <= b
    ensures s[a..b][..k] == s[a..a + k]
  {
  }

  lemma SliceJoin(s: seq<byte>, a: nat, b: nat, c: nat)
    requires a <= b <= c <= |s|
    ensures s[a..b] + s[b..c] == s[a..c]
  {
  }

  lemma PatchInside(a: seq<byte>, m: seq<byte>, c: seq<byte>, off: nat, b: seq<byte>)
    requires off + |b| <= |m|
    ensures a + Patch(m, off, b) + c == Patch(a + m + c, |a| + off, b)
  {
  }

  lemma PatchPrefix(f: seq<byte>, n: nat, p: nat, b: seq<byte>)
    requires p <= n <= |f| && p + |b| <= |f|
    ensures Patch(f[..n], p, b) == Patch(f, p, b)[..if p + |b| > n then p + |b| else n]
  {
  }

  /** The bytes b stand from p on; what is before them and behind them has not changed. */
  lemma PatchMeans(s: seq<byte>, p: nat, b: seq<byte>)
    requires p <= |s|
    ensures var r := Patch(s, p, b);
            && |r| == (if p + |b| > |s| then p + |b| else |s|)
            && r[..p] == s[..p] && r[p..p + |b|] == b
            && (p + |b| <= |s| ==> r[p + |b|..] == s[p + |b|..])
  {
  }

  lemma PatchNothing(s: seq<byte>, p: nat)
    requires p <= |s|
    ensures Patch(s, p, []) == s
  {
  }

  lemma CeilDiv(n: nat, base: nat)
    requires n > 0 && base > 0
    ensures var c := (n + base - 1) / base; c > 0 && c * base >= n && (c - 1) * base < n
  {
    var c := (n + base - 1) / base;
    assert n + base - 1 == c * base + (n + base - 1) % base;
    assert (c - 1) * base == c * base - base;
  }

  /** An iovec: `len` bytes of an array from `off` on. */
  datatype Span = Span(base: array<byte>, off: nat, len: nat)

  /** The bytes the spans show, in order. */
  ghost function SpanBytes(spans: seq<Span>): seq<byte>
    requires forall j | 0 <= j < |spans| :: spans[j].off + spans[j].len <= spans[j].base.Length
    reads set j | 0 <= j < |spans| :: spans[j].base
  {
    if spans == [] then []
    else spans[0].base[spans[0].off..spans[0].off + spans[0].len] + SpanBytes(spans[1..])
  }

  ghost predicate Disjoint(spans: seq<Span>) {
    forall a, b | 0 <= a < b < |spans| :: spans[a].base != spans[b].base
  }

  // ---------------------------------------------------------------- the byte array

  /** NullNode: a null m_cur is dereferenced. */
  datatype Result<+T> = Ok(value: T) | OutOfRange | NullNode

  class ByteArray {
    const baseSize: nat
    var position: nat
    var capacity: nat
    var size: nat
    var root: Node
    var cur: Node?
    ghost var Repr: set<object>       // this object, its nodes and their arrays
    ghost var nodes: seq<Node>        // the chain from root
    ghost var rows: seq<seq<byte>>    // what each of them holds
    ghost var at: nat                 // the index of cur in nodes
    ghost var start: nat              // the position of its first byte

    /** m_cur is node number `at`, into which the position falls, or null behind the last. */
    ghost predicate CurOk()
      reads this`at, this`nodes, this`cur, this`start, this`position, this`capacity
    {
      && at <= |nodes| && cur == (if at < |nodes| then nodes[at] else null)
      && start == at * baseSize && start <= position
      && (at < |nodes| ==> position < start + baseSize <= capacity)
      && (at == |nodes| ==> position == start == capacity)
    }

    /** Node i holds row i in an array of its own and points to the next node. */
    ghost predicate NodeOk(i: nat)
      requires i < |nodes| == |rows|
      reads this`nodes, this`rows, this`Repr, nodes, Arrays(nodes)
    {
      && nodes[i] in Repr && nodes[i].ptr in Repr
      && nodes[i].ptr.Length == baseSize && nodes[i].ptr[..] == rows[i]
      && nodes[i].next == (if i + 1 < |nodes| then nodes[i + 1] else null)
      && forall j | 0 <= j < |nodes| && j != i :: nodes[j].ptr != nodes[i].ptr
    }

    /** The places at which the list is not as it should be. */
    ghost function Broken(): set<nat>
      requires |nodes| == |rows|
      reads this`nodes, this`rows, this`Repr, nodes, Arrays(nodes)
    {
      set i | 0 <= i < |nodes| && !NodeOk(i)
    }

    ghost predicate ListOk()
      reads this`nodes, this`rows, this`Repr, this`root, this`capacity, nodes, Arrays(nodes)
    {
      && this in Repr
      && baseSize > 0 && nodes != [] && nodes[0] == root && |rows| == |nodes|
      && Broken() == {}
      && capacity == |nodes| * baseSize
    }

    lemma Sound(i: nat)
      requires ListOk() && i < |nodes|
      ensures NodeOk(i) && |rows[i]| == baseSize
    {
      assert i !in Broken();
    }

    /** The nodes and their arrays belong to the object. */
    lemma Owned()
      requires ListOk()
      ensures (forall n | n in nodes :: n in Repr) && forall a | a in Arrays(nodes) :: a in Repr
    {
      forall i | 0 <= i < |nodes| ensures nodes[i] in Repr && nodes[i].ptr in Repr {
        Sound(i);
      }
    }

    lemma RowsSound()
      requires ListOk()
      ensures forall i | 0 <= i < |rows| :: |rows[i]| == baseSize
      ensures |Flat(rows)| == capacity
    {
      forall i | 0 <= i < |rows| ensures |rows[i]| == baseSize {
        Sound(i);
      }
      FlatLength(rows, baseSize);
    }

    /** The list is intact and the cursor where it should be. */
    ghost predicate Valid()
      reads this, nodes, Arrays(nodes)
    {
      ListOk() && position <= size <= capacity && CurOk()
    }

    /** No node could be spared. */
    ghost predicate Tight()
      reads this
    {
      |nodes| == 1 || capacity < size + baseSize
    }

    /** The bytes written so far. */
    ghost function Contents(): (s: seq<byte>)
      requires Valid()
      reads this, nodes, Arrays(nodes)
      ensures |s| == size
    {
      RowsSound();
      Flat(rows)[..size]
    }

    /** m_cur is the node with number position / baseSize, null exactly at the capacity. */
    lemma CursorNode()
      requires Valid()
      ensures cur == null <==> position == capacity
      ensures position < capacity ==> position / baseSize < |nodes| && cur == nodes[position / baseSize]
      ensures position % baseSize == position - start
    {
      DivMod(position, baseSize, at, position - start);
    }

    constructor (baseSize: nat)
      requires baseSize > 0
      ensures Valid() && this.baseSize == baseSize && position == 0 && size == 0 && Contents() == []
      ensures fresh(Repr) && Tight()
    {
      this.baseSize := baseSize;
      position, capacity, size := 0, baseSize, 0;
      var n := new Node(baseSize);
      root, cur, nodes, rows, at, start := n, n, [n], [n.ptr[..]], 0, 0;
      Repr := {this, n, n.ptr};
    }

    function GetReadSize(): nat
      requires position <= size
      reads this
    {
      size - position
    }

    function GetCapacity(): nat
      requires position <= capacity
      reads this
    {
      capacity - position
    }

    /** The chain has only grown. */
    twostate predicate Grown()
      reads this
    {
      && |nodes| >= |old(nodes)| && nodes[..|old(nodes)|] == old(nodes)
      && fresh(Repr - old(Repr))
    }

    // ---------------------------------------------------------------- growing

    method LastNode() returns (tmp: Node)
      requires Valid()
      ensures tmp == nodes[|nodes| - 1]
    {
      tmp := root;
      ghost var i := 0;
      while tmp.next != null
        invariant i < |nodes| && tmp == nodes[i]
        decreases |nodes| - i
      {
        Sound(i);
        tmp := tmp.next;
        i := i + 1;
      }
      Sound(i);
    }

    /** One more node at the end of the chain. */
    method AppendNode(tmp: Node) returns (node: Node)
      requires ListOk() && tmp == nodes[|nodes| - 1]
      modifies this`capacity, this`nodes, this`rows, this`Repr, tmp`next
      ensures fresh(node) && fresh(node.ptr) && nodes == old(nodes) + [node] && Repr == old(Repr) + {node, node.ptr}
      ensures ListOk() && rows[..|old(rows)|] == old(rows)
    {
      Sound(|nodes| - 1);
      node := new Node(baseSize);
      tmp.next := node;
      capacity := capacity + baseSize;
      AddMul(|nodes|, 1, baseSize);
      nodes, Repr := nodes + [node], Repr + {node, node.ptr};
      rows := rows + [node.ptr[..]];
      forall i | 0 <= i < |nodes| ensures NodeOk(i) {
        assert i < |nodes| - 1 ==> old(i !in Broken());
      }
    }

    /** The loop of addCapacity. */
    method Extend(count: nat, last: Node) returns (first: Node?)
      requires ListOk() && last == nodes[|nodes| - 1]
      modifies this`capacity, this`nodes, this`rows, this`Repr, last`next
      ensures ListOk() && Grown() && |nodes| == |old(nodes)| + count && rows[..|old(rows)|] == old(rows)
      ensures count > 0 ==> first == nodes[|old(nodes)|]
    {
      var tmp, i := last, 0;
      first := null;
      while i < count
        invariant i <= count
        invariant ListOk() && Grown() && |nodes| == |old(nodes)| + i && tmp == nodes[|nodes| - 1]
        invariant rows[..|old(rows)|] == old(rows)
        invariant i == 0 <==> first == null
        invariant i == 0 ==> tmp == last
        invariant i > 0 ==> fresh(tmp) && first == nodes[|old(nodes)|]
      {
        tmp := AppendNode(tmp);
        if first == null {
          first := tmp;
        }
        i := i + 1;
      }
    }

    /** addCapacity: room for `n` bytes after the position, with the least number of new
        nodes; the cursor is moved off null. */
    method AddCapacity(n: nat)
      requires Valid()
      modifies this`capacity, this`cur, this`nodes, this`rows, this`Repr, nodes
      ensures Valid() && Grown() && Contents() == old(Contents())
      ensures n <= capacity - position
      ensures |nodes| == |old(nodes)| || n > capacity - position - baseSize
    {
      if n == 0 {
        return;
      }
      var oldCap := GetCapacity();
      if oldCap >= n {
        return;
      }
      var count := (n - oldCap + baseSize - 1) / baseSize;
      CeilDiv(n - oldCap, baseSize);
      AddMul(count - 1, 1, baseSize);
      Grow(count, oldCap);
    }

    /** Its second half: so many nodes more. */
    method Grow(count: nat, oldCap: nat)
      requires Valid() && count > 0 && oldCap == capacity - position
      modifies this`capacity, this`cur, this`nodes, this`rows, this`Repr, nodes
      ensures Valid() && Grown() && Contents() == old(Contents())
      ensures capacity == old(capacity) + count * baseSize
    {
      var tmp := LastNode();
      ghost var n0 := |nodes|;
      RowsSound();
      var first := Extend(count, tmp);
      AddMul(n0, count, baseSize);
      MulAtLeast(count, baseSize);
      if oldCap == 0 {
        cur := first;
      }
      FlatGrown(rows, n0);
    }

    // ---------------------------------------------------------------- writing

    /** memcpy of a chunk into the array of node i. */
    method StoreChunk(arr: array<byte>, ghost i: nat, off: nat, chunk: seq<byte>)
      requires ListOk() && i < |nodes| && arr == nodes[i].ptr && off + |chunk| <= baseSize == |rows[i]|
      modifies this`rows, arr
      ensures ListOk() && rows == old(rows)[i := Patch(old(rows)[i], off, chunk)]
    {
      Sound(i);
      forall k | 0 <= k < |chunk| {
        arr[off + k] := chunk[k];
      }
      rows := rows[i := arr[..]];
      assert rows[i] == Patch(old(rows)[i], off, chunk);
      forall j | 0 <= j < |nodes| ensures NodeOk(j) {
        assert old(j !in Broken());
      }
    }

    /** In the flat view one stretch changes. */
    method StoreFlat(arr: array<byte>, ghost i: nat, off: nat, chunk: seq<byte>)
      requires ListOk() && i < |nodes| && arr == nodes[i].ptr && off + |chunk| <= baseSize
      modifies this`rows, arr
      ensures ListOk() && i * baseSize + off + |chunk| <= |Flat(old(rows))|
      ensures Flat(rows) == Patch(Flat(old(rows)), i * baseSize + off, chunk)
    {
      RowsSound();
      FlatStore(rows, i, baseSize, off, chunk);
      StoreChunk(arr, i, off, chunk);
    }

    /** The same for bytes n .. n + k of a buffer that goes over `flat` from `p` on, the
        earlier ones being there already. */
    method StorePart(arr: array<byte>, ghost i: nat, off: nat, buf: seq<byte>, n: nat, k: nat, ghost flat: seq<byte>, ghost p: nat)
      requires ListOk() && i < |nodes| && arr == nodes[i].ptr && n + k <= |buf| && off + k <= baseSize
      requires p + |buf| <= |flat| && p + n == i * baseSize + off
      requires Flat(rows) == Patch(flat, p, buf[..n])
      modifies this`rows, arr
      ensures ListOk() && Flat(rows) == Patch(flat, p, buf[..n + k])
    {
      PatchMore(flat, p, buf, n, k);
      StoreFlat(arr, i, off, buf[n..n + k]);
    }

    /** Where the node after node i starts. */
    lemma NextStart(i: nat, from: nat)
      requires ListOk() && i < |nodes| && from == i * baseSize
      ensures (i + 1) * baseSize == from + baseSize
      ensures if i + 1 < |nodes| then from + 2 * baseSize <= capacity else from + baseSize == capacity
    {
      AddMul(i, 1, baseSize);
      AddMul(i, 2, baseSize);
      MulLe(i + 2, |nodes|, baseSize);
    }

    /** memcpy of a chunk to the cursor, which moves on to the next node when this one is full. */
    method Put(chunk: seq<byte>, npos: nat)
      requires ListOk() && CurOk() && at < |nodes|
      requires npos == position - start && chunk != [] && npos + |chunk| <= baseSize
      modifies this`position, this`cur, this`at, this`start, this`rows, Arrays(nodes)
      ensures ListOk() && CurOk() && (npos + |chunk| == baseSize ==> position == start)
      ensures position == old(position) + |chunk| && old(position) <= |Flat(old(rows))|
      ensures Flat(rows) == Patch(Flat(old(rows)), old(position), chunk)
    {
      Sound(at);
      StoreFlat(cur.ptr, at, npos, chunk);
      NextStart(at, start);
      if cur.ptr.Length == npos + |chunk| {
        cur := cur.next;
        at, start := at + 1, start + baseSize;
      }
      position := position + |chunk|;
    }

    /** The same for bytes bpos .. bpos + k of the buffer, the earlier ones being written. */
    method PutPart(buf: seq<byte>, bpos: nat, k: nat, npos: nat, ghost flat: seq<byte>, ghost from: nat)
      requires ListOk() && CurOk() && at < |nodes|
      requires npos == position - start && 0 < k && bpos + k <= |buf| && npos + k <= baseSize
      requires from + |buf| <= |flat| && position == from + bpos
      requires Flat(rows) == Patch(flat, from, buf[..bpos])
      modifies this`position, this`cur, this`at, this`start, this`rows, Arrays(nodes)
      ensures ListOk() && CurOk() && (npos + k == baseSize ==> position == start)
      ensures position == from + bpos + k
      ensures Flat(rows) == Patch(flat, from, buf[..bpos + k])
    {
      PatchMore(flat, from, buf, bpos, k);
      Put(buf[bpos..bpos + k], npos);
    }

    /** m_position % m_baseSize */
    method Offset() returns (npos: nat)
      requires Valid()
      ensures npos == position - start
    {
      npos := position % baseSize;
      CursorNode();
    }

    /** One pass of the loop of write. */
    method WritePass(buf: seq<byte>, bpos0: nat, left0: nat, npos0: nat, ncap0: nat, ghost flat: seq<byte>, ghost from: nat)
        returns (bpos: nat, left: nat, npos: nat, ncap: nat)
      requires ListOk() && CurOk() && 0 < left0 && bpos0 + left0 == |buf| && from + |buf| <= |flat| == capacity
      requires position == from + bpos0 && npos0 == position - start && ncap0 == baseSize - npos0
      requires Flat(rows) == Patch(flat, from, buf[..bpos0])
      modifies this`position, this`cur, this`at, this`start, this`rows, Arrays(nodes)
      ensures ListOk() && CurOk() && left < left0 && bpos + left == |buf| && position == from + bpos
      ensures left > 0 ==> npos == position - start && ncap == baseSize - npos
      ensures Flat(rows) == Patch(flat, from, buf[..bpos])
    {
      bpos, left, npos, ncap := bpos0, left0, npos0, ncap0;
      if ncap >= left {
        PutPart(buf, bpos, left, npos, flat, from);
        bpos := bpos + left;
        left := 0;
      } else {
        PutPart(buf, bpos, ncap, npos, flat, from);
        bpos := bpos + ncap;
        left := left - ncap;
        Sound(at);
        ncap := cur.ptr.Length;
        npos := 0;
      }
    }

    method WriteLoop(buf: seq<byte>)
      requires Valid() && buf != [] && |buf| <= capacity - position
      modifies this`position, this`cur, this`at, this`start, this`rows, Arrays(nodes)
      ensures ListOk() && CurOk() && position == old(position) + |buf| <= |Flat(old(rows))|
      ensures Flat(rows) == Patch(Flat(old(rows)), old(position), buf)
    {
      RowsSound();
      ghost var flat, from := Flat(rows), position;
      var left: nat, bpos: nat := |buf|, 0;
      var npos := Offset();
      Sound(at);
      var ncap := cur.ptr.Length - npos;
      assert Flat(rows) == Patch(flat, from, buf[..bpos]);
      while left > 0
        invariant bpos + left == |buf| && position == from + bpos && ListOk() && CurOk()
        invariant left > 0 ==> npos == position - start && ncap == baseSize - npos
        invariant Flat(rows) == Patch(flat, from, buf[..bpos])
        decreases left
      {
        bpos, left, npos, ncap := WritePass(buf, bpos, left, npos, ncap, flat, from);
      }
      assert buf[..bpos] == buf;
    }

    /** write.  The bytes go over and behind the old ones; nothing else changes. */
    method Write(buf: seq<byte>)
      requires Valid()
      modifies Repr
      ensures Valid() && fresh(Repr - old(Repr))
      ensures position == old(position) + |buf|
      ensures Contents() == Patch(old(Contents()), old(position), buf)
      ensures Contents()[..old(position)] == old(Contents())[..old(position)] && Contents()[old(position)..position] == buf
      ensures Contents()[position..] == if position < |old(Contents())| then old(Contents())[position..] else []
      ensures old(Tight()) ==> Tight()
    {
      PatchMeans(Contents(), position, buf);
      if |buf| == 0 {
        PatchNothing(Contents(), position);
        return;
      }
      Owned();
      AddCapacity(|buf|);
      Owned();
      WriteRoom(buf);
    }

    method WriteRoom(buf: seq<byte>)
      requires Valid() && buf != [] && |buf| <= capacity - position
      modifies this`position, this`cur, this`at, this`start, this`rows, this`size, Arrays(nodes)
      ensures Valid() && position == old(position) + |buf|
      ensures Contents() == Patch(old(Contents()), old(position), buf)
    {
      ghost var flat, from, n := Flat(rows), position, size;
      RowsSound();
      WriteLoop(buf);
      PatchPrefix(flat, n, from, buf);
      if position > size {
        size := position;
      }
    }

    // ---------------------------------------------------------------- reading

    /** The next k bytes lie in the node of the cursor. */
    lemma InNode(i: nat, off: nat, k: nat)
      requires ListOk() && i < |nodes| && off + k <= baseSize
      ensures NodeOk(i) && i * baseSize + off + k <= |Flat(rows)| == capacity
      ensures nodes[i].ptr[off..off + k] == Flat(rows)[i * baseSize + off..i * baseSize + off + k]
    {
      RowsSound();
      Sound(i);
      FlatRead(rows, i, baseSize, off, k);
    }

    method Take(k: nat, npos: nat) returns (chunk: seq<byte>)
      requires ListOk() && CurOk() && at < |nodes|
      requires npos == position - start && 0 < k && npos + k <= baseSize
      modifies this`position, this`cur, this`at, this`start
      ensures CurOk() && (npos + k == baseSize ==> position == start)
      ensures position == old(position) + k <= |Flat(rows)|
      ensures chunk == Flat(rows)[old(position)..position]
    {
      InNode(at, npos, k);
      chunk := cur.ptr[npos..npos + k];
      NextStart(at, start);
      if cur.ptr.Length == npos + k {
        cur := cur.next;
        at, start := at + 1, start + baseSize;
      }
      position := position + k;
    }

    /** One pass of the loop of read. */
    method ReadPass(left0: nat, npos0: nat, ncap0: nat) returns (chunk: seq<byte>, left: nat, npos: nat, ncap: nat)
      requires ListOk() && CurOk() && 0 < left0 <= capacity - position
      requires npos0 == position - start && ncap0 == baseSize - npos0
      modifies this`position, this`cur, this`at, this`start
      ensures CurOk() && left < left0 && position + left == old(position) + left0 && position <= |Flat(rows)|
      ensures left > 0 ==> npos == position - start && ncap == baseSize - npos
      ensures chunk == Flat(rows)[old(position)..position]
    {
      left, npos, ncap := left0, npos0, ncap0;
      if ncap >= left {
        chunk := Take(left, npos);
        left := 0;
      } else {
        chunk := Take(ncap, npos);
        left := left - ncap;
        Sound(at);
        ncap := cur.ptr.Length;
        npos := 0;
      }
    }

    /** read.  With nothing to read the source still looks at m_cur, which is null at the
        capacity. */
    method Read(n: nat) returns (r: Result<seq<byte>>)
      requires Valid()
      modifies this`position, this`cur, this`at, this`start
      ensures Valid() && Contents() == old(Contents())
      ensures r == if n > old(GetReadSize()) then OutOfRange
                   else if n == 0 && old(position) == capacity then NullNode
                   else Ok(old(Contents()[position..position + n]))
      ensures position == if n > old(GetReadSize()) then old(position) else old(position) + n
    {
      if n > GetReadSize() {
        return OutOfRange;
      }
      if cur == null {
        return NullNode;
      }
      RowsSound();
      var buf: seq<byte>, left: nat := [], n;
      var npos := Offset();
      Sound(at);
      var ncap := cur.ptr.Length - npos;
      ghost var flat, from := Flat(rows), position;
      while left > 0
        invariant left <= n && position == from + n - left && CurOk()
        invariant left > 0 ==> npos == position - start && ncap == baseSize - npos
        invariant buf == flat[from..position]
        decreases left
      {
        ghost var pos := position;
        var chunk;
        chunk, left, npos, ncap := ReadPass(left, npos, ncap);
        SliceJoin(flat, from, pos, position);
        buf := buf + chunk;
      }
      SubSlice(flat, size, from, position);
      return Ok(buf);
    }

    /** setPosition: anywhere up to the capacity; past the size it extends the contents. */
    method SetPosition(v: nat) returns (ok: bool)
      requires Valid()
      modifies this`position, this`size, this`cur, this`at, this`start
      ensures Valid() && (ok <==> v <= capacity)
      ensures position == if ok then v else old(position)
      ensures size == if ok && v > old(size) then v else old(size)
      ensures Contents()[..old(size)] == old(Contents())
      ensures v <= old(size) ==> Contents() == old(Contents())
    {
      if v > capacity {
        return false;
      }
      position := v;
      if position > size {
        size := position;
      }
      Seek(v);
      RowsSound();
      return true;
    }

    /** The walk of setPosition from the root to the node of the new position. */
    method Seek(v: nat)
      requires ListOk() && v <= capacity && position == v
      modifies this`cur, this`at, this`start
      ensures CurOk()
    {
      var left := v;
      cur, at, start := root, 0, 0;
      Sound(0);
      SeekBound(left);
      while left > cur.ptr.Length
        invariant at < |nodes| && cur == nodes[at] && NodeOk(at) && start == at * baseSize && start + left == v
        invariant 0 <= left && start + baseSize <= capacity
        decreases left
      {
        left := left - cur.ptr.Length;
        NextStart(at, start);
        cur := cur.next;
        at, start := at + 1, start + baseSize;
        Sound(at);
      }
      if left == cur.ptr.Length {
        NextStart(at, start);
        cur := cur.next;
        at, start := at + 1, start + baseSize;
      }
    }

    lemma SeekBound(left: nat)
      requires ListOk()
      ensures baseSize <= capacity
    {
      MulLe(1, |nodes|, baseSize);
    }

    /** clear: one node is left. */
    method Clear()
      requires Valid()
      modifies this, root`next
      ensures Valid() && position == 0 && size == 0 && Contents() == [] && capacity == baseSize
      ensures root == old(root) && nodes == [root]
    {
      Sound(0);
      position, capacity, size := 0, baseSize, 0;
      cur := root;
      root.next := null;
      nodes, rows, at, start := [root], [rows[0]], 0, 0;
    }

    /** A cursor of its own: `node` is node i, which starts at position `from`. */
    ghost predicate Stands(node: Node?, i: nat, from: nat)
      reads this
    {
      i < |nodes| && node == nodes[i] && from == i * baseSize
    }

    method Peek(node: Node, ghost i: nat, ghost from: nat, npos: nat, k: nat) returns (chunk: seq<byte>)
      requires ListOk() && Stands(node, i, from) && npos + k <= baseSize
      ensures from + npos + k <= |Flat(rows)| && chunk == Flat(rows)[from + npos..from + npos + k]
    {
      InNode(i, npos, k);
      chunk := node.ptr[npos..npos + k];
    }

    /** On to the next node, which is there as long as a position lies behind this one. */
    method Follow(node: Node, ghost i: nat, ghost from: nat, ghost pos: nat) returns (next: Node)
      requires ListOk() && Stands(node, i, from) && from + baseSize <= pos < capacity
      ensures Stands(next, i + 1, from + baseSize) && next.ptr.Length == baseSize
    {
      Sound(i);
      NextStart(i, from);
      next := node.next;
      Sound(i + 1);
    }

    /** toString: the unread bytes, from the cursor on, which stays where it is. */
    method ToString() returns (s: seq<byte>)
      requires Valid()
      ensures s == Contents()[position..]
    {
      RowsSound();
      SubSlice(Flat(rows), size, position, size);
      if size - position == 0 {
        return [];
      }
      var npos := Offset();
      s := ReadConst(cur, at, start, npos, size - position, position);
    }

    /** The const read: `len` bytes from offset npos0 of a node on. */
    method ReadConst(node0: Node, ghost i0: nat, ghost from0: nat, npos0: nat, len: nat, ghost p: nat) returns (s: seq<byte>)
      requires ListOk() && Stands(node0, i0, from0) && npos0 < baseSize && p == from0 + npos0 && 0 < len <= capacity - p
      ensures |Flat(rows)| == capacity && s == Flat(rows)[p..p + len]
    {
      RowsSound();
      Sound(i0);
      s := [];
      var node, npos, left: nat := node0, npos0, len;
      ghost var i: nat, from: nat := i0, from0;
      var ncap: nat := node.ptr.Length - npos;
      ghost var flat, pos: nat := Flat(rows), p;
      while left > 0
        invariant p <= pos && pos + left == p + len
        invariant left > 0 ==> Stands(node, i, from) && ncap == baseSize - npos > 0 && from + npos == pos
        invariant s == flat[p..pos]
        decreases left
      {
        if ncap >= left {
          var chunk := Peek(node, i, from, npos, left);
          SliceJoin(flat, p, pos, pos + left);
          s, pos := s + chunk, pos + left;
          left := 0;
        } else {
          var chunk := Peek(node, i, from, npos, ncap);
          SliceJoin(flat, p, pos, pos + ncap);
          s, pos := s + chunk, pos + ncap;
          left := left - ncap;
          node := Follow(node, i, from, pos);
          i, from := i + 1, from + baseSize;
          ncap := node.ptr.Length;
          npos := 0;
        }
      }
    }

    // ---------------------------------------------------------------- scatter and gather

    /** The spans of `len` bytes from offset `off` of node i on: one per node. */
    ghost function SpanList(i: nat, off: nat, len: nat): seq<Span>
      reads this`nodes
      decreases len
    {
      if len == 0 || i >= |nodes| || off >= baseSize then []
      else if baseSize - off >= len then [Span(nodes[i].ptr, off, len)]
      else [Span(nodes[i].ptr, off, baseSize - off)] + SpanList(i + 1, 0, len - (baseSize - off))
    }

    /** Each lies in a node of its own. */
    lemma {:induction false} SpanListNodes(i: nat, off: nat, len: nat)
      requires ListOk()
      ensures var spans := SpanList(i, off, len);
              && (i <= |nodes| ==> i + |spans| <= |nodes|)
              && (forall j | 0 <= j < |spans| :: spans[j].off + spans[j].len <= spans[j].base.Length)
              && (forall k | i <= k < i + |spans| :: k < |nodes| && spans[k - i].base == nodes[k].ptr)
      decreases len
    {
      if len > 0 && i < |nodes| && off < baseSize {
        Sound(i);
        if baseSize - off < len {
          var spans, rest := SpanList(i, off, len), SpanList(i + 1, 0, len - (baseSize - off));
          SpanListNodes(i + 1, 0, len - (baseSize - off));
          assert spans[1..] == rest;
          forall k | i < k < i + |spans| ensures k < |nodes| && spans[k - i].base == nodes[k].ptr {
            assert spans[k - i] == rest[k - (i + 1)];
          }
        }
      }
    }

    lemma SpanListDisjoint(i: nat, off: nat, len: nat)
      requires ListOk()
      ensures Disjoint(SpanList(i, off, len))
    {
      var spans := SpanList(i, off, len);
      SpanListNodes(i, off, len);
      forall a, b | 0 <= a < b < |spans| ensures spans[a].base != spans[b].base {
        assert spans[a].base == nodes[i + a].ptr && spans[b].base == nodes[i + b].ptr;
        Sound(i + a);
      }
    }

    /** Together they show exactly those bytes. */
    lemma {:induction false} SpanListShows(i: nat, from: nat, off: nat, len: nat)
      requires ListOk() && (len > 0 ==> i < |nodes| && from == i * baseSize && off < baseSize)
      requires from + off + len <= capacity
      requires forall j | 0 <= j < |SpanList(i, off, len)| ::
                 SpanList(i, off, len)[j].off + SpanList(i, off, len)[j].len <= SpanList(i, off, len)[j].base.Length
      ensures |Flat(rows)| == capacity
      ensures SpanBytes(SpanList(i, off, len)) == Flat(rows)[from + off..from + off + len]
      decreases len
    {
      RowsSound();
      if len > 0 {
        var k: nat := if baseSize - off >= len then len else baseSize - off;
        if k < len {
          NextStart(i, from);
          SpanListNodes(i + 1, 0, len - k);
          SpanListShows(i + 1, from + baseSize, 0, len - k);
        }
        FirstSpanShows(i, from, off, len, k);
      }
    }

    lemma FirstSpanShows(i: nat, from: nat, off: nat, len: nat, k: nat)
      requires ListOk() && i < |nodes| && from == i * baseSize && off < baseSize && 0 < k <= len && off + k <= baseSize
      requires k == if baseSize - off >= len then len else baseSize - off
      requires |Flat(rows)| == capacity && from + off + len <= capacity
      requires var rest := SpanList(i + 1, 0, len - k);
               && (forall j | 0 <= j < |rest| :: rest[j].off + rest[j].len <= rest[j].base.Length)
               && (k < len ==> SpanBytes(rest) == Flat(rows)[from + off + k..from + off + len])
      requires forall j | 0 <= j < |SpanList(i, off, len)| ::
                 SpanList(i, off, len)[j].off + SpanList(i, off, len)[j].len <= SpanList(i, off, len)[j].base.Length
      ensures SpanBytes(SpanList(i, off, len)) == Flat(rows)[from + off..from + off + len]
    {
      InNode(i, off, k);
      SpanBytesFirst(Span(nodes[i].ptr, off, k), SpanList(i + 1, 0, len - k));
      SliceJoin(Flat(rows), from + off, from + off + k, from + off + len);
      assert k == len ==> SpanList(i, off, len) == [Span(nodes[i].ptr, off, k)] + SpanList(i + 1, 0, len - k);
    }

    /** The loop shared by the three ways to ask for spans. */
    method Walk(node0: Node, ghost i0: nat, ghost from0: nat, npos0: nat, len: nat) returns (spans: seq<Span>)
      requires ListOk() && len > 0 && Stands(node0, i0, from0) && npos0 < baseSize && from0 + npos0 + len <= capacity
      ensures spans == SpanList(i0, npos0, len)
    {
      spans := [];
      Sound(i0);
      var node, npos, left := node0, npos0, len;
      ghost var i: nat, from: nat := i0, from0;
      var ncap := node.ptr.Length - npos;
      while left > 0
        invariant 0 <= left && 0 <= npos
        invariant left > 0 ==> Stands(node, i, from) && ncap == baseSize - npos > 0 && from + npos + left <= capacity
        invariant spans + SpanList(i, npos, left) == SpanList(i0, npos0, len)
        decreases left
      {
        if ncap >= left {
          spans := spans + [Span(node.ptr, npos, left)];
          left := 0;
        } else {
          spans := spans + [Span(node.ptr, npos, ncap)];
          left := left - ncap;
          node := Follow(node, i, from, from + baseSize);
          i, from := i + 1, from + baseSize;
          ncap := node.ptr.Length;
          npos := 0;
        }
      }
    }

    /** What a caller may rely on: separate spans that show `bytes`. */
    ghost predicate Shows(spans: seq<Span>, bytes: seq<byte>)
      reads set j | 0 <= j < |spans| :: spans[j].base
    {
      && (forall j | 0 <= j < |spans| :: spans[j].off + spans[j].len <= spans[j].base.Length)
      && Disjoint(spans)
      && SpanBytes(spans) == bytes
    }

    lemma SpansShow(i: nat, from: nat, off: nat, len: nat, pos: nat)
      requires ListOk() && i < |nodes| && from == i * baseSize && off < baseSize && pos == from + off && pos + len <= capacity
      ensures |Flat(rows)| == capacity
      ensures Shows(SpanList(i, off, len), Flat(rows)[pos..pos + len])
    {
      SpanListNodes(i, off, len);
      SpanListDisjoint(i, off, len);
      SpanListShows(i, from, off, len);
    }

    lemma NoSpans(pos: nat)
      requires Valid() && pos <= size
      ensures Shows([], Contents()[pos..pos])
    {
    }

    /** getReadBuffers: the next bytes, as many as are asked for and there are. */
    method GetReadBuffers(len: nat) returns (spans: seq<Span>, n: nat)
      requires Valid()
      ensures n == if len > GetReadSize() then GetReadSize() else len
      ensures Shows(spans, Contents()[position..position + n])
    {
      n := if len > size - position then size - position else len;
      if n == 0 {
        NoSpans(position);
        spans := [];
        return;
      }
      spans := WalkFromCursor(n);
      SubSlice(Flat(rows), size, position, position + n);
    }

    /** The walk from the cursor on. */
    method WalkFromCursor(n: nat) returns (spans: seq<Span>)
      requires Valid() && 0 < n <= capacity - position
      ensures spans == SpanList(at, position - start, n)
      ensures |Flat(rows)| == capacity && Shows(spans, Flat(rows)[position..position + n])
    {
      var npos := Offset();
      spans := Walk(cur, at, start, npos, n);
      SpansShow(at, start, npos, n, position);
    }

    /** getReadBuffers from a position of the caller's choice.  How much is shown depends on the
        cursor; where that runs past the contents, bytes are shown that have not been written, and
        past the capacity the walk follows a null pointer. */
    method GetReadBuffersAt(len: nat, pos: nat) returns (spans: seq<Span>, n: nat, fault: bool)
      requires Valid()
      ensures n == if len > GetReadSize() then GetReadSize() else len
      ensures fault <==> n > 0 && pos + n > capacity
      ensures n == 0 ==> spans == []
      ensures n > 0 && !fault ==> |Flat(rows)| == capacity && Shows(spans, Flat(rows)[pos..pos + n])
      ensures pos + n <= size ==> Shows(spans, Contents()[pos..pos + n])
    {
      n, fault, spans := if len > size - position then size - position else len, false, [];
      if n == 0 {
        return;
      }
      if pos + n > capacity {
        fault := true;
        return;
      }
      var node, npos, i, from := NodeAt(pos);
      spans := Walk(node, i, from, npos, n);
      SpansShow(i, from, npos, n, pos);
      if pos + n <= size {
        SubSlice(Flat(rows), size, pos, pos + n);
      }
    }

    /** The walk from the root to the node of a position. */
    method NodeAt(pos: nat) returns (node: Node, npos: nat, ghost i: nat, ghost from: nat)
      requires ListOk() && pos < capacity
      ensures Stands(node, i, from) && from + npos == pos && npos < baseSize
    {
      var count := pos / baseSize;
      npos := pos % baseSize;
      DivBound(pos, baseSize, |nodes|);
      node, i := root, 0;
      while count > 0
        invariant 0 <= count && i + count == pos / baseSize && node == nodes[i]
        decreases count
      {
        Sound(i);
        node := node.next;
        i, count := i + 1, count - 1;
      }
      from := i * baseSize;
    }

    /** getWriteBuffers: room for `len` bytes behind the cursor. */
    method GetWriteBuffers(len: nat) returns (spans: seq<Span>)
      requires Valid()
      modifies Repr
      ensures Valid() && fresh(Repr - old(Repr)) && position == old(position)
      ensures Contents() == old(Contents()) && len <= capacity - position
      ensures spans == SpanList(at, position - start, len)
      ensures len <= |Flat(rows)| - position && Shows(spans, Flat(rows)[position..position + len])
    {
      Owned();
      AddCapacity(len);
      spans := WriteSpans(len);
    }

    method WriteSpans(len: nat) returns (spans: seq<Span>)
      requires Valid() && len <= capacity - position
      ensures spans == SpanList(at, position - start, len)
      ensures len <= |Flat(rows)| - position && Shows(spans, Flat(rows)[position..position + len])
    {
      RowsSound();
      if len == 0 {
        return [];
      }
      spans := WalkFromCursor(len);
    }

    lemma SpanListNext(spans: seq<Span>, j: nat, i: nat, from: nat, off: nat, len: nat)
      requires ListOk() && ComesNext(spans, j, i, from, off, len) && len > 0 && from + off + len <= capacity
      ensures j < |spans|
      ensures spans[j] == Span(nodes[i].ptr, off, if baseSize - off >= len then len else baseSize - off)
      ensures len > baseSize - off ==> ComesNext(spans, j + 1, i + 1, from + baseSize, 0, len - (baseSize - off))
    {
      assert spans[j] == spans[j..][0];
      assert spans[j + 1..] == spans[j..][1..];
      NextStart(i, from);
    }

    /** What the socket does with spans for writing: it fills them in order with the bytes
        it has. */
    method Receive(spans: seq<Span>, data: seq<byte>, ghost i0: nat, ghost from0: nat, ghost off0: nat, ghost len: nat)
      requires ListOk() && i0 < |nodes| && from0 == i0 * baseSize && off0 < baseSize && from0 + off0 + len <= capacity
      requires spans == SpanList(i0, off0, len) && |data| <= len
      modifies this`rows, Arrays(nodes)
      ensures ListOk() && from0 + off0 + |data| <= |Flat(old(rows))|
      ensures Flat(rows) == Patch(Flat(old(rows)), from0 + off0, data)
    {
      RowsSound();
      PatchNothing(Flat(rows), from0 + off0);
      ReceiveLoop(spans, data, i0, from0, off0, len, Flat(rows), from0 + off0);
    }

    /** Its loop. */
    method ReceiveLoop(spans: seq<Span>, data: seq<byte>, ghost i0: nat, ghost from0: nat, ghost off0: nat, ghost len: nat,
                       ghost flat: seq<byte>, ghost pos: nat)
      requires ListOk() && ComesNext(spans, 0, i0, from0, off0, len) && from0 + off0 == pos && |data| <= len
      requires pos + len <= capacity && pos + |data| <= |flat| && Flat(rows) == Patch(flat, pos, [])
      modifies this`rows, Arrays(nodes)
      ensures ListOk() && Flat(rows) == Patch(flat, pos, data)
    {
      ghost var i: nat, from: nat, off: nat := i0, from0, off0;
      var j: nat, n: nat := 0, 0;
      assert data[..0] == [];
      while n < |data|
        invariant n <= |data| && ListOk()
        invariant n < |data| ==> ComesNext(spans, j, i, from, off, len - n) && from + off == pos + n
        invariant Flat(rows) == Patch(flat, pos, data[..n])
      {
        var k := ReceivePass(spans, j, data, n, i, from, off, len - n, flat, pos);
        n, j := n + k, j + 1;
        i, from, off := i + 1, from + baseSize, 0;
      }
      assert data[..n] == data;
    }

    /** One span is filled, or what is left of the data goes into it. */
    method ReceivePass(spans: seq<Span>, j: nat, data: seq<byte>, n: nat, ghost i: nat, ghost from: nat, ghost off: nat, ghost len: nat,
                       ghost flat: seq<byte>, ghost p: nat)
        returns (k: nat)
      requires ListOk() && n < |data| && |data| - n <= len && from + off + len <= capacity
      requires ComesNext(spans, j, i, from, off, len) && from + off == p + n
      requires p + |data| <= |flat| && Flat(rows) == Patch(flat, p, data[..n])
      modifies this`rows, Arrays(nodes)
      ensures ListOk() && 0 < k <= |data| - n
      ensures n + k < |data| ==> ComesNext(spans, j + 1, i + 1, from + baseSize, 0, len - k) && from + baseSize == p + n + k
      ensures Flat(rows) == Patch(flat, p, data[..n + k])
    {
      SpanListNext(spans, j, i, from, off, len);
      k := if spans[j].len >= |data| - n then |data| - n else spans[j].len;
      StorePart(spans[j].base, i, spans[j].off, data, n, k, flat, p);
    }

    /** Span j is the first of those for `len` bytes from offset `off` of node i on. */
    ghost predicate ComesNext(spans: seq<Span>, j: nat, i: nat, from: nat, off: nat, len: nat)
      reads this`nodes
    {
      j <= |spans| && spans[j..] == SpanList(i, off, len) && i < |nodes| && from == i * baseSize && off < baseSize
    }

    /** Filling the first bytes of the spans of getWriteBuffers and advancing the position by
        as many is the same as writing those bytes. */
    method Fill(spans: seq<Span>, data: seq<byte>, ghost len: nat)
      requires Valid() && 0 < |data| <= len <= capacity - position
      requires spans == SpanList(at, position - start, len)
      modifies Repr
      ensures Valid() && Repr == old(Repr) && position == old(position) + |data|
      ensures Contents() == Patch(old(Contents()), old(position), data)
    {
      Owned();
      ghost var flat, from := Flat(rows), position;
      RowsSound();
      PatchPrefix(flat, size, from, data);
      Receive(spans, data, at, start, position - start, len);
      RowsSound();
      var ok := SetPosition(position + |data|);
    }
  }

  lemma SpanBytesNext(spans: seq<Span>, j: nat)
    requires j < |spans| && forall k | 0 <= k < |spans| :: spans[k].off + spans[k].len <= spans[k].base.Length
    ensures var s := spans[j];
            SpanBytes(spans[j..]) == s.base[s.off..s.off + s.len] + SpanBytes(spans[j + 1..])
  {
    assert spans[j..][0] == spans[j] && spans[j..][1..] == spans[j + 1..];
  }

  lemma SpanBytesFirst(s: Span, rest: seq<Span>)
    requires s.off + s.len <= s.base.Length
    requires forall j | 0 <= j < |rest| :: rest[j].off + rest[j].len <= rest[j].base.Length
    ensures forall j | 0 <= j < |[s] + rest| :: ([s] + rest)[j].off + ([s] + rest)[j].len <= ([s] + rest)[j].base.Length
    ensures SpanBytes([s] + rest) == s.base[s.off..s.off + s.len] + SpanBytes(rest)
  {
    assert ([s] + rest)[1..] == rest;
  }
}
