/**
  TimerManager: timers in a set ordered by their mutable deadline, with the one-bit
  "already tickled" flag and the detection of a clock set back.

  Times are unsigned 64-bit milliseconds; `now` is what GetCurrentMS returns.  The ordered
  set is a sequence sorted by (deadline, address), and every operation on it is the one of
  std::set: it relies on the order, so it is right only while no key in the set changes.
*/
module TimerManager {
  import opened Prelude

  type Callback = nat

  const W: nat := 0x1_0000_0000_0000_0000

  type u64 = x: nat | x < W

  /** Addition and subtraction of unsigned 64-bit numbers. */
  function Plus(a: u64, b: u64): u64 {
    if a + b < W then a + b else a + b - W
  }

  function Minus(a: u64, b: u64): u64 {
    if a >= b then a - b else a - b + W
  }

  /** It is the arithmetic modulo 2^64. */
  lemma PlusMinusModulo(a: u64, b: u64)
    ensures Plus(a, b) == (a + b) % 0x1_0000_0000_0000_0000
    ensures Minus(a, b) == (a - b) % 0x1_0000_0000_0000_0000
    ensures Plus(Minus(a, b), b) == a
  {
  }

  class Timer {
    const addr: nat          // the address the comparator falls back to
    const recurring: bool
    var ms: u64
    var next: u64
    var cb: Option<Callback>
    ghost var collected: nat     // how often listExpiredCb has collected it
    ghost var cancelled: bool    // cancel has returned true

    constructor (addr: nat, ms: u64, cb: Callback, recurring: bool, now: u64)
      ensures this.addr == addr && this.recurring == recurring
      ensures this.ms == ms && this.cb == Some(cb) && this.next == Plus(now, ms)
      ensures collected == 0 && !cancelled
    {
      this.addr, this.recurring := addr, recurring;
      this.ms, this.cb := ms, Some(cb);
      this.next := Plus(now, ms);
      this.collected, this.cancelled := 0, false;
    }
  }

  /** The fields of a timer, and what collecting it makes of them. */
  datatype Fields = Fields(ms: u64, next: u64, cb: Option<Callback>, collected: nat, cancelled: bool)

  ghost function FieldsOf(t: Timer): Fields
    reads t
  {
    Fields(t.ms, t.next, t.cb, t.collected, t.cancelled)
  }

  ghost function Snapshot(all: set<Timer>): map<Timer, Fields>
    reads all
  {
    map t | t in all :: FieldsOf(t)
  }

  function AfterExpiry(f: Fields, recurring: bool, now: u64): Fields {
    if recurring then f.(next := Plus(now, f.ms), collected := f.collected + 1)
    else f.(cb := None, collected := f.collected + 1)
  }

  // ---------------------------------------------------------------- the comparator

  datatype Probe = Probe(next: u64, addr: nat)

  function Of(t: Timer): Probe
    reads t
  {
    Probe(t.next, t.addr)
  }

  /** Timer::Comparator on non-null timers. */
  predicate Less(a: Probe, b: Probe) {
    if a.next < b.next then true
    else if b.next < a.next then false
    else a.addr < b.addr
  }

  /** Timer::Comparator: a null pointer comes before every timer. */
  predicate Precedes(a: Option<Probe>, b: Option<Probe>) {
    if a == None && b == None then false
    else if a == None then true
    else if b == None then false
    else Less(a.value, b.value)
  }

  /** The comparator is a strict total order on pointers to timers, which differ in their
      addresses, and null. */
  lemma StrictTotalOrder(a: Option<Probe>, b: Option<Probe>, c: Option<Probe>)
    ensures !Precedes(a, a)
    ensures Precedes(a, b) && Precedes(b, c) ==> Precedes(a, c)
    ensures !(Precedes(a, b) && Precedes(b, a))
    ensures !Precedes(a, b) && !Precedes(b, a) <==> a == b
    // earlier deadlines first, the address among equal ones, null before all
    ensures a.Some? && b.Some? && a.value.next < b.value.next ==> Precedes(a, b)
    ensures a.Some? && b.Some? && a.value.next == b.value.next && a.value.addr < b.value.addr ==> Precedes(a, b)
    ensures a == None && b.Some? ==> Precedes(a, b)
  {
  }

  ghost predicate Sorted(s: seq<Timer>)
    reads s
  {
    forall i, j | 0 <= i < j < |s| :: Less(Of(s[i]), Of(s[j]))
  }

  /** std::set::lower_bound */
  function LowerBound(s: seq<Timer>, p: Probe): (i: nat)
    reads s
    ensures i <= |s|
    ensures forall j | 0 <= j < i :: Less(Of(s[j]), p)
    ensures i < |s| ==> !Less(Of(s[i]), p)
  {
    if s == [] then 0
    else if !Less(Of(s[0]), p) then 0
    else 1 + LowerBound(s[1..], p)
  }

  /** In a sorted set every timer is found where it is. */
  lemma Found(s: seq<Timer>, k: nat)
    requires Sorted(s) && k < |s|
    ensures LowerBound(s, Of(s[k])) == k
  {
  }

  /** The timers in a sequence. */
  ghost function Elems(s: seq<Timer>): set<Timer> {
    if s == [] then {} else Elems(s[1..]) + {s[0]}
  }

  lemma {:induction false} ElemsAppend(a: seq<Timer>, b: seq<Timer>)
    ensures Elems(a + b) == Elems(a) + Elems(b)
  {
    if a == [] {
      assert a + b == b;
    } else {
      ElemsAppend(a[1..], b);
      assert (a + b)[1..] == a[1..] + b;
    }
  }

  lemma {:induction false} ElemsIndex(s: seq<Timer>, t: Timer)
    ensures t in Elems(s) <==> t in s
  {
    if s != [] {
      ElemsIndex(s[1..], t);
      assert s == [s[0]] + s[1..];
    }
  }

  lemma ElemsSplit(s: seq<Timer>, i: nat)
    requires i <= |s|
    ensures Elems(s) == Elems(s[..i]) + Elems(s[i..])
  {
    ElemsAppend(s[..i], s[i..]);
    assert s[..i] + s[i..] == s;
  }

  ghost function Inserted(s: seq<Timer>, t: Timer): seq<Timer>
    reads s, t
  {
    var i := LowerBound(s, Of(t));
    s[..i] + [t] + s[i..]
  }

  lemma InsertedElems(s: seq<Timer>, i: nat, t: Timer)
    requires i <= |s|
    ensures Elems(s[..i] + [t] + s[i..]) == Elems(s) + {t}
  {
    ElemsSplit(s, i);
    ElemsAppend(s[..i] + [t], s[i..]);
    ElemsAppend(s[..i], [t]);
  }

  lemma ElemsAround(s: seq<Timer>, i: nat)
    requires i < |s|
    ensures Elems(s) == Elems(s[..i]) + {s[i]} + Elems(s[i + 1..])
  {
    ElemsSplit(s, i);
    assert s[i..][0] == s[i] && s[i..][1..] == s[i + 1..];
  }

  lemma OnlyOnce(s: seq<Timer>, i: nat)
    requires Sorted(s) && i < |s|
    ensures s[i] !in Elems(s[..i]) && s[i] !in Elems(s[i + 1..])
  {
    ElemsIndex(s[..i], s[i]);
    ElemsIndex(s[i + 1..], s[i]);
    forall j | 0 <= j < |s| && j != i ensures s[j] != s[i] {
      assert Less(Of(s[i]), Of(s[j])) || Less(Of(s[j]), Of(s[i]));
    }
  }

  /** A sorted set without the timer at position i. */
  lemma RemovedElems(s: seq<Timer>, i: nat)
    requires Sorted(s) && i < |s|
    ensures Sorted(s[..i] + s[i + 1..])
    ensures Elems(s[..i] + s[i + 1..]) == Elems(s) - {s[i]}
  {
    ElemsAround(s, i);
    OnlyOnce(s, i);
    ElemsAppend(s[..i], s[i + 1..]);
  }

  lemma InsertedSorted(s: seq<Timer>, t: Timer)
    requires Sorted(s) && forall u | u in Elems(s) :: u.addr != t.addr
    ensures Sorted(Inserted(s, t))
  {
    var i := LowerBound(s, Of(t));
    forall k | i <= k < |s| ensures Less(Of(t), Of(s[k])) {
      ElemsIndex(s, s[k]);
      ElemsIndex(s, s[i]);
      if i < k {
        assert Less(Of(s[i]), Of(s[k]));
      }
    }
  }

  // ---------------------------------------------------------------- the manager

  /** What holds of every timer handed out: it is in the set exactly while it has its
      callback, a one-shot is collected at most once and then has none, a cancelled timer
      has none. */
  ghost predicate Listed(t: Timer, timers: set<Timer>, byAddr: map<nat, Timer>)
    reads t
  {
    && (t.cb.Some? ==> t.addr in byAddr && byAddr[t.addr] == t)
    && (t.cb.Some? <==> t in timers)
    && (!t.recurring ==> t.collected <= if t.cb.Some? then 0 else 1)
    && (t.cancelled ==> t.cb == None)
  }

  /** And if every deadline so far was computed from a clock that never went back and without
      wrap-around, it lies between ms and clock + ms. */
  ghost predicate Timely(t: Timer, honest: bool, clock: u64)
    reads t
  {
    honest && t.cb.Some? ==> t.ms <= t.next <= clock + t.ms
  }

  ghost predicate Good(t: Timer, timers: set<Timer>, honest: bool, clock: u64, byAddr: map<nat, Timer>)
    reads t
  {
    Listed(t, timers, byAddr) && Timely(t, honest, clock)
  }

  class TimerManager {
    var timers: seq<Timer>     // m_timers
    var tickled: bool          // m_tickled
    var previousTime: u64      // m_previousTime
    ghost var all: set<Timer>              // every timer handed out
    ghost var byAddr: map<nat, Timer>      // the latest at each address: no two in the set share one
    ghost var seen: nat                    // the deadline the last getTimerNext saw; W for none
    ghost var notified: bool               // onTimerInsertedAtFront was called since then
    ghost var clock: u64                   // the last time read
    ghost var honest: bool                 // the clock never went back, no deadline wrapped around

    /** What holds in every run.  In particular no wakeup is lost as long as the clock never
        went back and no deadline wrapped around. */
    ghost predicate Valid()
      reads this, all, timers
    {
      Sound() && (honest ==> WakeOk() && previousTime <= clock)
    }

    ghost predicate Sound()
      reads this, all, timers
    {
      && Sorted(timers)
      && Elems(timers) <= all
      && (forall t | t in all :: Good(t, Elems(timers), honest, clock, byAddr))
    }

    /** No wakeup is lost: either the waiting thread has been notified since it computed its
        timeout, or the earliest deadline is no earlier than the one it saw. */
    ghost predicate WakeOk()
      reads this`timers, this`tickled, this`notified, this`seen, timers
    {
      if tickled then notified else Late()
    }

    ghost predicate Late()
      reads this`timers, this`seen, timers
    {
      timers != [] ==> timers[0].next >= seen
    }

    /** So with such a clock, whatever has been added, reset, refreshed, cancelled or armed again:
        the waiting thread has been notified, or no timer is due before the deadline it saw. */
    lemma NoWakeupLost(t: Timer)
      requires Valid() && honest && t in Elems(timers)
      ensures tickled ==> notified
      ensures !tickled ==> t.next >= seen
      ensures forall now: u64 | now >= clock :: !SetBack(previousTime, now)
    {
      ElemsIndex(timers, t);
      var i :| 0 <= i < |timers| && timers[i] == t;
      if !tickled {
        LateTail(i);
      }
    }

    /** Over any run: a one-shot is collected at most once, and no timer is in the set, so none
        is collected again, after that or after a cancel that returned true. */
    lemma AtMostOnce(t: Timer)
      requires Sound() && t in all
      ensures !t.recurring ==> t.collected <= 1 && (t.collected == 1 ==> t !in Elems(timers))
      ensures t.cancelled ==> t !in Elems(timers)
      ensures t.cb.Some? <==> t in Elems(timers)
    {
      assert Good(t, Elems(timers), honest, clock, byAddr);
    }

    constructor (now: u64)
      ensures Valid() && WakeOk() && honest && clock == now && timers == [] && all == {} && byAddr == map[] && !tickled
    {
      timers, tickled, previousTime := [], false, now;
      all, seen, notified, clock, honest, byAddr := {}, W, false, now, true, map[];
    }

    /** Sound, but for the deadline of one timer. */
    ghost predicate SoundBut(t: Timer)
      reads this, all, timers
    {
      && Sorted(timers)
      && Elems(timers) <= all
      && (forall u | u in all :: Listed(u, Elems(timers), byAddr))
      && (forall u | u in all && u != t :: Timely(u, honest, clock))
    }

    /** A change to one timer leaves all others as they should be. */
    twostate lemma OneChanged(t: Timer)
      requires old(Sound()) && all == old(all) && byAddr == old(byAddr) && honest == old(honest) && clock == old(clock)
      requires Sorted(timers) && Elems(timers) <= all
      requires Elems(timers) == old(Elems(timers)) || Elems(timers) == old(Elems(timers)) - {t}
      requires forall u | u in all && u != t :: unchanged(u)
      requires Listed(t, Elems(timers), byAddr)
      ensures SoundBut(t)
    {
      forall u | u in all && u != t ensures Good(u, Elems(timers), honest, clock, byAddr) {
        assert old(Good(u, Elems(timers), honest, clock, byAddr));
      }
    }

    /** History: the deadline of t has been computed from `time`, with or without wrap-around. */
    ghost method Stamp(t: Timer, fair: bool, time: u64)
      requires SoundBut(t) && t in all && (honest && fair ==> clock <= time && Timely(t, true, time))
      requires honest && fair ==> WakeOk() && previousTime <= clock
      modifies this`honest, this`clock
      ensures Valid() && honest == (old(honest) && fair) && clock == time && (old(WakeOk()) ==> WakeOk())
    {
      honest, clock := honest && fair, time;
      forall u | u in all ensures Good(u, Elems(timers), honest, clock, byAddr) {
        assert old(Listed(u, Elems(timers), byAddr));
        assert u != t ==> old(Timely(u, honest, clock));
      }
    }

    /** m_timers.insert */
    method SetInsert(t: Timer) returns (it: nat)
      requires Sorted(timers) && forall u | u in Elems(timers) :: u.addr != t.addr
      modifies this`timers
      ensures Sorted(timers) && Elems(timers) == old(Elems(timers)) + {t}
      ensures it < |timers| && timers[it] == t && (it > 0 ==> old(timers) != [] && timers[0] == old(timers)[0])
      ensures Late() <==> old(Late()) && t.next >= seen
    {
      InsertedSorted(timers, t);
      it := LowerBound(timers, Of(t));
      InsertedElems(timers, it, t);
      timers := timers[..it] + [t] + timers[it..];
      assert it > 0 ==> Less(Of(timers[0]), Of(timers[it]));
      assert it == 0 && |timers| > 1 ==> Less(Of(timers[0]), Of(timers[1]));
    }

    /** m_timers.find and erase: the timer is found because its key has not changed. */
    method SetErase(t: Timer)
      requires Sorted(timers) && t in Elems(timers)
      modifies this`timers
      ensures Sorted(timers) && Elems(timers) == old(Elems(timers)) - {t}
      ensures timers != [] ==> timers[0].next >= old(timers)[0].next
      ensures old(Late()) ==> Late()
    {
      ElemsIndex(timers, t);
      ghost var k :| 0 <= k < |timers| && timers[k] == t;
      Found(timers, k);
      var it := LowerBound(timers, Of(t));
      assert timers[it] == t;
      RemovedElems(timers, it);
      assert |timers| > 1 ==> Less(Of(timers[0]), Of(timers[1]));
      timers := timers[..it] + timers[it + 1..];
    }

    /** Every assignment to m_next of an existing timer: the timer is never in the set then. */
    method SetDeadline(t: Timer, next: u64)
      requires Sorted(timers) && t !in Elems(timers)
      modifies t`next
      ensures t.next == next && Sorted(timers)
      ensures timers != [] ==> timers[0].next == old(timers[0].next)
    {
      forall i | 0 <= i < |timers| ensures timers[i] != t {
        ElemsIndex(timers, timers[i]);
      }
      t.next := next;
    }

    /** The private addTimer: insert, and notify if the new timer came to the front. */
    method Insert(t: Timer)
      requires Sorted(timers) && forall u | u in Elems(timers) :: u.addr != t.addr
      modifies this`timers, this`tickled, this`notified
      ensures Sorted(timers) && Elems(timers) == old(Elems(timers)) + {t} && timers != []
      ensures old(WakeOk()) ==> WakeOk()
      ensures tickled == (old(tickled) || timers[0] == t)
    {
      var it := SetInsert(t);
      var atFront := it == 0 && !tickled;
      if atFront {
        tickled := true;
        OnTimerInsertedAtFront();
      }
    }

    method OnTimerInsertedAtFront()
      modifies this`notified
      ensures notified
    {
      notified := true;
    }

    /** addTimer */
    method AddTimer(ms: u64, cb: Callback, recurring: bool, now: u64, addr: nat) returns (t: Timer)
      requires Valid() && forall u | u in Elems(timers) :: u.addr != addr
      modifies this`timers, this`tickled, this`notified, this`all, this`byAddr, this`clock, this`honest
      ensures Valid() && fresh(t) && all == old(all) + {t} && byAddr == old(byAddr)[addr := t]
      ensures t.cb == Some(cb) && t.ms == ms && t.recurring == recurring && t.next == Plus(now, ms) && t.addr == addr
      ensures Elems(timers) == old(Elems(timers)) + {t}
      ensures old(WakeOk()) ==> WakeOk()
      ensures clock == now && honest == (old(honest) && old(clock) <= now && now + ms < W)
    {
      t := new Timer(addr, ms, cb, recurring, now);
      Enroll(t, now);
    }

    /** The second half of addTimer: the timer just made at `now` joins the set. */
    method Enroll(t: Timer, now: u64)
      requires Valid() && t !in all && forall u | u in Elems(timers) :: u.addr != t.addr
      requires t.cb.Some? && (now + t.ms < W ==> t.next == now + t.ms) && t.collected == 0 && !t.cancelled
      modifies this`timers, this`tickled, this`notified, this`all, this`byAddr, this`clock, this`honest
      ensures Valid() && all == old(all) + {t} && byAddr == old(byAddr)[t.addr := t]
      ensures Elems(timers) == old(Elems(timers)) + {t}
      ensures old(WakeOk()) ==> WakeOk()
      ensures clock == now && honest == (old(honest) && old(clock) <= now && now + t.ms < W)
    {
      Insert(t);
      Admit(t);
      Stamp(t, clock <= now && now + t.ms < W, now);
    }

    /** History: the timer is known. */
    ghost method Admit(t: Timer)
      requires Sorted(timers) && t !in all && t in Elems(timers) && Elems(timers) <= all + {t}
      requires forall u | u in Elems(timers) && u != t :: u.addr != t.addr
      requires forall u | u in all :: Good(u, Elems(timers) - {t}, honest, clock, byAddr)
      requires t.cb.Some? && t.collected == 0 && !t.cancelled
      modifies this`all, this`byAddr
      ensures SoundBut(t) && all == old(all) + {t} && byAddr == old(byAddr)[t.addr := t] && (old(WakeOk()) ==> WakeOk())
    {
      all, byAddr := all + {t}, byAddr[t.addr := t];
      forall u | u in old(all) ensures Listed(u, Elems(timers), byAddr) && Timely(u, honest, clock) {
        assert old(Good(u, Elems(timers) - {t}, honest, clock, byAddr));
      }
    }

    /** Timer::cancel: it acts exactly if the timer still has its callback. */
    method Cancel(t: Timer) returns (ok: bool)
      requires Valid() && t in all
      modifies this`timers, this`clock, this`honest, t`cb, t`cancelled
      ensures Valid() && (old(WakeOk()) ==> WakeOk())
      ensures ok <==> old(t.cb).Some?
      ensures t.cb == None && Elems(timers) == old(Elems(timers)) - {t}
      ensures t.cancelled == (old(t.cancelled) || ok) && clock == old(clock) && honest == old(honest)
    {
      if t.cb.Some? {
        Remove(t);
        Stamp(t, true, clock);
        return true;
      }
      return false;
    }

    method Remove(t: Timer)
      requires Sound() && t in all && t.cb.Some?
      modifies this`timers, t`cb, t`cancelled
      ensures SoundBut(t) && (old(WakeOk()) ==> WakeOk())
      ensures t.cb == None && t.cancelled && Elems(timers) == old(Elems(timers)) - {t}
    {
      OwnAddress(t);
      SetErase(t);
      ghost var late := Late();
      t.cb := None;
      t.cancelled := true;
      assert Late() == late;
      OneChanged(t);
    }

    /** A timer in the set shares its address with no other one there. */
    lemma OwnAddress(t: Timer)
      requires Sound() && t in all && t.cb.Some?
      ensures t in Elems(timers) && Listed(t, Elems(timers), byAddr)
      ensures forall u | u in Elems(timers) && u != t :: u.addr != t.addr
    {
      assert Good(t, Elems(timers), honest, clock, byAddr);
      forall u | u in Elems(timers) && u != t ensures u.addr != t.addr {
        assert Good(u, Elems(timers), honest, clock, byAddr);
      }
    }

    /** Erase, change the deadline, insert again. */
    method Rekey(t: Timer, next: u64)
      requires Sound() && t in all && t.cb.Some?
      modifies this`timers, t`next
      ensures SoundBut(t) && Elems(timers) == old(Elems(timers)) && t.next == next && timers != []
      ensures old(WakeOk()) ==> (WakeOk() <==> tickled || next >= seen)
    {
      OwnAddress(t);
      ElemsIndex(timers, t);
      SetErase(t);
      SetDeadline(t, next);
      var it := SetInsert(t);
      assert it > 0 ==> Less(Of(timers[0]), Of(timers[it]));
      OneChanged(t);
    }

    lemma Later(t: Timer, now: u64)
      requires Valid() && t in all && t.cb.Some?
      ensures honest && clock <= now && now + t.ms < W ==> tickled || (now + t.ms >= t.next >= seen)
    {
      assert Good(t, Elems(timers), honest, clock, byAddr);
      if honest {
        NoWakeupLost(t);
      }
    }

    /** Timer::refresh: the deadline moves to now + ms.  There is no check whether the timer
        came to the front, so a wakeup is lost exactly if nobody has been notified and the
        new deadline is earlier than the one the waiting thread saw.  With a clock that does
        not go back and no wrap-around that cannot be: the deadline only moves up. */
    method Refresh(t: Timer, now: u64) returns (ok: bool)
      requires Valid() && t in all
      modifies this`timers, this`clock, this`honest, t`next
      ensures Valid() && Elems(timers) == old(Elems(timers))
      ensures ok <==> t.cb.Some?
      ensures t.next == if ok then Plus(now, t.ms) else old(t.next)
      ensures ok && old(WakeOk()) ==> (WakeOk() <==> tickled || t.next >= seen)
      ensures !ok && old(WakeOk()) ==> WakeOk()
      ensures old(honest) && old(clock) <= now && now + t.ms < W ==> honest && WakeOk() && t.next >= old(t.next)
      ensures ok ==> clock == now && honest == (old(honest) && old(clock) <= now && now + t.ms < W)
    {
      if t.cb == None {
        return false;
      }
      Later(t, now);
      Rekey(t, Plus(now, t.ms));
      Stamp(t, clock <= now && now + t.ms < W, now);
      return true;
    }

    method Restart(t: Timer, ms: u64, next: u64)
      requires Sound() && t in all && t.cb.Some?
      modifies this`timers, this`tickled, this`notified, t`next, t`ms
      ensures SoundBut(t) && Elems(timers) == old(Elems(timers)) && t.next == next && t.ms == ms
      ensures old(WakeOk()) ==> WakeOk()
    {
      OwnAddress(t);
      SetErase(t);
      ghost var ok := WakeOk();
      SetDeadline(t, next);
      t.ms := ms;
      assert ok ==> WakeOk();
      Insert(t);
      OneChanged(t);
    }

    /** Timer::reset.  With the same period and not from now it reports success whatever the
        timer's state; otherwise it acts exactly if the timer still has its callback. */
    method Reset(t: Timer, ms: u64, fromNow: bool, now: u64) returns (ok: bool)
      requires Valid() && t in all
      modifies this`timers, this`tickled, this`notified, this`clock, this`honest, t`next, t`ms
      ensures Valid() && Elems(timers) == old(Elems(timers)) && (old(WakeOk()) ==> WakeOk())
      ensures ok <==> (ms == old(t.ms) && !fromNow) || t.cb.Some?
      ensures if t.cb == None || (ms == old(t.ms) && !fromNow)
              then t.ms == old(t.ms) && t.next == old(t.next) && clock == old(clock) && honest == old(honest)
              else var start := if fromNow then now else Minus(old(t.next), old(t.ms));
                   && t.ms == ms && t.next == Plus(start, ms) && clock == (if fromNow then now else old(clock))
                   && honest == (old(honest) && start + ms < W && (fromNow ==> old(clock) <= now))
    {
      if ms == t.ms && !fromNow {
        return true;
      }
      if t.cb == None {
        return false;
      }
      var start := if fromNow then now else Minus(t.next, t.ms);
      Restart(t, ms, Plus(start, ms));
      Stamp(t, start + ms < W && (fromNow ==> clock <= now), if fromNow then now else clock);
      return true;
    }

    /** getTimerNext: the time to wait, 0 if a timer is due, the largest number if there is
        none.  From here on the thread relies on being notified of anything earlier. */
    method GetTimerNext(now: u64) returns (timeout: u64)
      requires Valid()
      modifies this`tickled, this`seen, this`notified
      ensures Valid() && WakeOk() && !tickled
      ensures timers == [] ==> timeout == W - 1 && seen == W
      ensures timers != [] ==> seen == timers[0].next && now + timeout == if now >= seen then now else seen
      ensures forall i | 0 <= i < |timers| :: timers[i].next >= seen
    {
      tickled, notified := false, false;
      if timers == [] {
        seen := W;
        return W - 1;
      }
      seen := timers[0].next;
      forall i | 0 < i < |timers| ensures timers[i].next >= seen {
        assert Less(Of(timers[0]), Of(timers[i]));
      }
      if now >= timers[0].next {
        return 0;
      }
      return timers[0].next - now;
    }

    /** detectClockRollover; the subtraction is unsigned. */
    method DetectClockRollover(now: u64) returns (rollover: bool)
      modifies this`previousTime
      ensures previousTime == now && rollover == SetBack(old(previousTime), now)
      ensures rollover <==> now < old(previousTime) && (old(previousTime) < 3600000 || old(previousTime) - now > 3600000)
    {
      rollover := false;
      if now < previousTime && now < Minus(previousTime, 60 * 60 * 1000) {
        rollover := true;
      }
      previousTime := now;
    }

    /** One expired timer, already out of the set: its callback is copied; a recurring timer
        goes back with a new deadline, a one-shot loses its callback. */
    method Collect(t: Timer, now: u64) returns (cb: Callback)
      requires Sorted(timers) && t !in Elems(timers) && t.cb.Some? && forall u | u in Elems(timers) :: u.addr != t.addr
      modifies this`timers, t`next, t`cb, t`collected
      ensures Sorted(timers) && Elems(timers) == old(Elems(timers)) + if t.recurring then {t} else {}
      ensures cb == old(t.cb).value && t.collected == old(t.collected) + 1
      ensures t.cb == if t.recurring then old(t.cb) else None
      ensures t.next == if t.recurring then Plus(now, t.ms) else old(t.next)
      ensures Late() <==> old(Late()) && (t.recurring ==> t.next >= seen)
    {
      cb := t.cb.value;
      t.collected := t.collected + 1;
      if t.recurring {
        SetDeadline(t, Plus(now, t.ms));
        var it := SetInsert(t);
      } else {
        t.cb := None;
      }
    }

    /** The end of the expired range: lower_bound of a probe with the present time and an
        arbitrary address, then on over the timers due right now. */
    method ExpiredEnd(now: u64, probe: nat, rollover: bool) returns (it: nat)
      requires Sorted(timers)
      ensures it <= |timers|
      ensures rollover ==> it == |timers|
      ensures !rollover ==> forall i | 0 <= i < |timers| :: timers[i].next <= now <==> i < it
    {
      it := if rollover then |timers| else LowerBound(timers, Probe(now, probe));
      while it < |timers| && timers[it].next == now
        invariant it <= |timers| && (rollover ==> it == |timers|)
        invariant !rollover ==> forall i | 0 <= i < it :: timers[i].next <= now
        invariant !rollover && it < |timers| ==> timers[it].next >= now
      {
        it := it + 1;
        assert it < |timers| ==> Less(Of(timers[it - 1]), Of(timers[it]));
      }
      if !rollover && it < |timers| {
        forall i | it <= i < |timers| ensures timers[i].next > now {
          assert i > it ==> Less(Of(timers[it]), Of(timers[i]));
        }
      }
    }

    /** The invariant while the timers in `due` are out of the set but not yet collected. */
    ghost predicate ValidBut(due: set<Timer>)
      reads this, all, timers
    {
      && Sorted(timers)
      && due <= all && Elems(timers) <= all && due !! Elems(timers)
      && Misfits(due) == {}
    }

    ghost function Misfits(due: set<Timer>): set<Timer>
      reads this, all
    {
      set t | t in all && !(Good(t, Elems(timers) + due, honest, clock, byAddr)
                            && (honest && t in due && t.recurring ==> clock + t.ms < W))
    }

    lemma AllCollected()
      requires ValidBut({})
      ensures Sound()
    {
      assert Elems(timers) + {} == Elems(timers);
      forall t | t in all ensures Good(t, Elems(timers), honest, clock, byAddr) {
        assert t !in Misfits({});
      }
    }

    /** Where the collection of the timers `due0` stands when those in `due` remain: the ones
        done are as AfterExpiry says and back in the set exactly if recurring, no other timer
        has been touched. */
    ghost predicate Stands(t: Timer, was: map<Timer, Fields>, members: set<Timer>, due0: set<Timer>, due: set<Timer>, now: u64)
      requires t in was
      reads this, t
    {
      && FieldsOf(t) == (if t in due0 && t !in due then AfterExpiry(was[t], t.recurring, now) else was[t])
      && (t in Elems(timers) <==> if t in due0 then t !in due && t.recurring else t in members)
    }

    /** The timers for which this is not so. */
    ghost function Strays(was: map<Timer, Fields>, members: set<Timer>, due0: set<Timer>, due: set<Timer>, now: u64): set<Timer>
      requires all <= was.Keys
      reads this, all
    {
      set t | t in all && !Stands(t, was, members, due0, due, now)
    }

    /** When none strays: a one-shot has been collected for good, a recurring timer is back with
        a deadline one period from now, and every other timer is as it was. */
    lemma ExpiredMeans(was: map<Timer, Fields>, members: set<Timer>, due: set<Timer>, now: u64, t: Timer)
      requires all <= was.Keys && t in all && Strays(was, members, due, {}, now) == {}
      ensures t.ms == was[t].ms && t.cancelled == was[t].cancelled
      ensures t in due && t.recurring ==>
                t in Elems(timers) && t.cb == was[t].cb && t.next == (now + t.ms) % 0x1_0000_0000_0000_0000
      ensures t in due && !t.recurring ==> t !in Elems(timers) && t.cb == None && t.next == was[t].next
      ensures t in due ==> t.collected == was[t].collected + 1
      ensures t !in due ==>
                && (t in Elems(timers) <==> t in members)
                && t.cb == was[t].cb && t.next == was[t].next && t.collected == was[t].collected
    {
      assert t !in Strays(was, members, due, {}, now);
      PlusMinusModulo(now, t.ms);
    }

    lemma LateTail(n: nat)
      requires Sorted(timers) && n < |timers| && Late()
      ensures timers[n].next >= seen
    {
      assert n > 0 ==> Less(Of(timers[0]), Of(timers[n]));
    }

    /** History: the clock has been read, and n timers are going to be armed again. */
    ghost method Tick(n: nat, now: u64)
      requires Sound() && n <= |timers|
      modifies this`clock, this`honest
      ensures Sound() && clock == now && honest == (old(honest) && old(clock) <= now && NoWrap(n, now))
      ensures Snapshot(all) == old(Snapshot(all)) && (old(Late()) ==> Late())
    {
      honest, clock := honest && clock <= now && NoWrap(n, now), now;
      forall u | u in all ensures Good(u, Elems(timers), honest, clock, byAddr) {
        assert old(Good(u, Elems(timers), honest, clock, byAddr));
      }
    }

    /** The expired timers leave the set. */
    method Detach(n: nat) returns (expired: seq<Timer>)
      requires Sound() && n <= |timers| && (honest ==> NoWrap(n, clock))
      modifies this`timers
      ensures expired == old(timers)[..n] && timers == old(timers)[n..] && Unique(expired)
      ensures ValidBut(Elems(expired)) && Elems(expired) + Elems(timers) == old(Elems(timers))
      ensures Snapshot(all) == old(Snapshot(all)) && (old(Late()) ==> Late())
    {
      if n < |timers| && Late() {
        LateTail(n);
      }
      ElemsSplit(timers, n);
      SplitDisjoint(timers, n);
      expired := timers[..n];
      timers := timers[n..];
      assert Elems(timers) + Elems(expired) == old(Elems(timers));
      forall u | u in all ensures u !in Misfits(Elems(expired)) {
        assert old(Good(u, Elems(timers), honest, clock, byAddr));
        if u in Elems(expired) {
          ElemsIndex(expired, u);
        }
      }
    }

    /** One expired timer is collected. */
    method CollectOne(t: Timer, now: u64, ghost was: map<Timer, Fields>, ghost members: set<Timer>,
                      ghost due0: set<Timer>, ghost due: set<Timer>) returns (cb: Callback)
      requires clock == now && ValidBut(due) && t in due && t in due0 && all == was.Keys
      requires Strays(was, members, due0, due, now) == {}
      modifies this`timers, t`next, t`cb, t`collected
      ensures ValidBut(due - {t}) && Some(cb) == was[t].cb
      ensures Strays(was, members, due0, due - {t}, now) == {}
      ensures Late() <==> old(Late()) && (t.recurring ==> Plus(now, was[t].ms) >= seen)
    {
      assert t !in Strays(was, members, due0, due, now) && t !in Misfits(due);
      forall u | u in Elems(timers) ensures u.addr != t.addr {
        assert u !in Misfits(due);
      }
      cb := Collect(t, now);
      forall u | u in all && u != t
        ensures Good(u, Elems(timers) + (due - {t}), honest, clock, byAddr)
        ensures Stands(u, was, members, due0, due - {t}, now)
      {
        assert u !in old(Misfits(due));
        assert u !in old(Strays(was, members, due0, due, now));
      }
    }

    /** The loop over the expired timers. */
    method CollectAll(expired: seq<Timer>, now: u64) returns (cbs: seq<Callback>)
      requires clock == now && ValidBut(Elems(expired)) && Unique(expired)
      modifies this`timers, Elems(expired)
      ensures Sound() && Elems(expired) <= all
      ensures Strays(old(Snapshot(all)), old(Elems(timers)), Elems(expired), {}, now) == {}
      ensures Took(cbs, expired, old(Snapshot(all)))
      ensures Late() <==> old(Late()) && OnTime(expired, old(Snapshot(all)), now, seen)
    {
      cbs := [];
      var i := 0;
      ghost var was, members := Snapshot(all), Elems(timers);
      CollectingStarts(expired, now);
      while i < |expired|
        invariant i <= |expired| && Collecting(expired, i, cbs, was, members, old(Late()), now)
      {
        var cb := CollectNext(expired, i, cbs, was, members, old(Late()), now);
        cbs, i := cbs + [cb], i + 1;
      }
      CollectingEnds(expired, cbs, was, members, old(Late()), now);
    }

    lemma CollectingStarts(expired: seq<Timer>, now: u64)
      requires clock == now && ValidBut(Elems(expired))
      ensures Collecting(expired, 0, [], Snapshot(all), Elems(timers), Late(), now)
    {
      assert expired[0..] == expired && expired[..0] == [];
    }

    lemma CollectingEnds(expired: seq<Timer>, cbs: seq<Callback>, was: map<Timer, Fields>, members: set<Timer>, late: bool, now: u64)
      requires Collecting(expired, |expired|, cbs, was, members, late, now)
      ensures Sound() && Strays(was, members, Elems(expired), {}, now) == {}
      ensures Took(cbs, expired, was) && (Late() <==> late && OnTime(expired, was, now, seen))
    {
      assert expired[|expired|..] == [] && expired[..|expired|] == expired;
      AllCollected();
    }

    /** The first i of the expired timers have been collected. */
    ghost predicate Collecting(expired: seq<Timer>, i: nat, cbs: seq<Callback>, was: map<Timer, Fields>,
                               members: set<Timer>, late: bool, now: u64)
      requires i <= |expired|
      reads this, all, timers
    {
      && clock == now && all == was.Keys && ValidBut(Elems(expired[i..]))
      && Strays(was, members, Elems(expired), Elems(expired[i..]), now) == {}
      && Took(cbs, expired[..i], was)
      && (Late() <==> late && OnTime(expired[..i], was, now, seen))
    }

    method CollectNext(expired: seq<Timer>, i: nat, ghost cbs: seq<Callback>, ghost was: map<Timer, Fields>,
                       ghost members: set<Timer>, ghost late: bool, now: u64) returns (cb: Callback)
      requires i < |expired| && Unique(expired) && Collecting(expired, i, cbs, was, members, late, now)
      modifies this`timers, Elems(expired)
      ensures Collecting(expired, i + 1, cbs + [cb], was, members, late, now)
    {
      UniqueFirst(expired, i);
      cb := CollectOne(expired[i], now, was, members, Elems(expired), Elems(expired[i..]));
      TookStep(cbs, expired, i, was, cb, now, seen);
    }

    /** The first n timers leave the set and are collected. */
    method CollectFirst(n: nat, now: u64) returns (cbs: seq<Callback>)
      requires Sound() && n <= |timers| && clock == now && (honest ==> NoWrap(n, now))
      modifies this`timers, all
      ensures Sound() && Took(cbs, old(timers)[..n], old(Snapshot(all)))
      ensures Strays(old(Snapshot(all)), old(Elems(timers)), Elems(old(timers)[..n]), {}, now) == {}
      ensures old(Late()) ==> (Late() <==> OnTime(old(timers)[..n], old(Snapshot(all)), now, seen))
    {
      var expired := Detach(n);
      cbs := CollectAll(expired, now);
    }

    ghost predicate NoWrap(n: nat, now: u64)
      requires n <= |timers|
      reads this`timers, timers
    {
      forall i | 0 <= i < n && timers[i].recurring :: now + timers[i].ms < W
    }

    /** If the clock was not set back and no deadline wraps around, re-arming the expired
        timers spoils nothing. */
    lemma ReArmedOnTime(n: nat, now: u64)
      requires Sound() && Late() && n <= |timers| && NoWrap(n, now)
      requires forall i | 0 <= i < n :: timers[i].next <= now
      ensures OnTime(timers[..n], Snapshot(all), now, seen)
    {
      OnTimeEach(timers[..n], Snapshot(all), now, seen);
    }

    /** The first half of listExpiredCb: how many timers are expired.  At 0 the source returns
        here; the second half would do nothing. */
    method Due(now: u64, probe: nat) returns (n: nat)
      requires Sound()
      modifies this`previousTime
      ensures n <= |timers| && Sound() && Snapshot(all) == old(Snapshot(all)) && (old(WakeOk()) ==> WakeOk())
      ensures if SetBack(old(previousTime), now) then n == |timers|
              else forall i | 0 <= i < |timers| :: timers[i].next <= now <==> i < n
      ensures previousTime == if timers == [] then old(previousTime) else now
    {
      if timers == [] {
        return 0;
      }
      var rollover := DetectClockRollover(now);
      if !rollover && timers[0].next > now {
        forall i | 0 < i < |timers| ensures timers[i].next > now {
          assert Less(Of(timers[0]), Of(timers[i]));
        }
        return 0;
      }
      n := ExpiredEnd(now, probe, rollover);
    }

    /** The same; and unless the clock was set back, arming these again is no harm. */
    method DueOnTime(now: u64, probe: nat) returns (n: nat)
      requires Sound()
      modifies this`previousTime
      ensures n <= |timers| && Sound() && Snapshot(all) == old(Snapshot(all)) && (old(WakeOk()) ==> WakeOk())
      ensures if SetBack(old(previousTime), now) then n == |timers|
              else forall i | 0 <= i < |timers| :: timers[i].next <= now <==> i < n
      ensures previousTime == if timers == [] then old(previousTime) else now
      ensures !SetBack(old(previousTime), now) && Late() && NoWrap(n, now) ==> OnTime(timers[..n], Snapshot(all), now, seen)
    {
      n := Due(now, probe);
      if !SetBack(old(previousTime), now) && Late() && NoWrap(n, now) {
        ReArmedOnTime(n, now);
      }
    }

    /** listExpiredCb.  `n` timers are collected, in deadline order: those with a deadline up
        to now, or all of them if the clock was set back.  Recurring ones are armed again one
        period from now, one-shots are gone, all others are untouched: no timer is
        among the Strays.  A wakeup
        is lost exactly if nobody has been notified and a timer armed again is due before
        the deadline the waiting thread saw.  With a clock that does not go back it is never
        taken for set back, and, without wrap-around, no wakeup is lost. */
    method ListExpired(now: u64, probe: nat) returns (cbs: seq<Callback>, n: nat)
      requires Valid()
      modifies this`timers, this`previousTime, this`clock, this`honest, all
      ensures Valid() && n <= |old(timers)|
      ensures if SetBack(old(previousTime), now) then n == |old(timers)|
              else forall i | 0 <= i < |old(timers)| :: old(timers[i].next) <= now <==> i < n
      ensures Took(cbs, old(timers)[..n], old(Snapshot(all)))
      ensures Strays(old(Snapshot(all)), old(Elems(timers)), Elems(old(timers)[..n]), {}, now) == {}
      ensures old(WakeOk()) ==> (WakeOk() <==> tickled || OnTime(old(timers)[..n], old(Snapshot(all)), now, seen))
      ensures old(WakeOk()) && !SetBack(old(previousTime), now) && old(NoWrap(n, now)) ==> WakeOk()
      ensures clock == now && honest == (old(honest) && old(clock) <= now && old(NoWrap(n, now)))
      ensures previousTime == if old(timers) == [] then old(previousTime) else now
    {
      n := DueOnTime(now, probe);
      cbs := CollectDue(n, now);
    }

    /** The second half. */
    method CollectDue(n: nat, now: u64) returns (cbs: seq<Callback>)
      requires Sound() && n <= |timers|
      modifies this`timers, this`clock, this`honest, all
      ensures Sound() && Took(cbs, old(timers)[..n], old(Snapshot(all)))
      ensures Strays(old(Snapshot(all)), old(Elems(timers)), Elems(old(timers)[..n]), {}, now) == {}
      ensures clock == now && honest == (old(honest) && old(clock) <= now && old(NoWrap(n, now)))
      ensures old(WakeOk()) ==> (WakeOk() <==> tickled || OnTime(old(timers)[..n], old(Snapshot(all)), now, seen))
    {
      ghost var first, was := timers[..n], Snapshot(all);
      ghost var late, onTime := Late(), OnTime(first, was, now, seen);
      Tick(n, now);
      cbs := CollectFirst(n, now);
      assert late ==> (Late() <==> onTime);
    }
  }

  /** The callbacks are those the timers had, in this order. */
  ghost predicate Took(cbs: seq<Callback>, s: seq<Timer>, was: map<Timer, Fields>) {
    if s == [] then cbs == []
    else
      var n := |s| - 1;
      |cbs| == |s| && s[n] in was && was[s[n]].cb == Some(cbs[n]) && Took(cbs[..n], s[..n], was)
  }

  /** No timer that is armed again is due before `seen`. */
  ghost predicate OnTime(s: seq<Timer>, was: map<Timer, Fields>, now: u64, seen: nat) {
    s == []
    || var n := |s| - 1;
       (s[n] in was && s[n].recurring ==> Plus(now, was[s[n]].ms) >= seen) && OnTime(s[..n], was, now, seen)
  }

  lemma TookStep(cbs: seq<Callback>, s: seq<Timer>, i: nat, was: map<Timer, Fields>, cb: Callback, now: u64, seen: nat)
    requires i < |s| && Took(cbs, s[..i], was) && s[i] in was && was[s[i]].cb == Some(cb)
    ensures Took(cbs + [cb], s[..i + 1], was)
    ensures OnTime(s[..i + 1], was, now, seen)
            <==> OnTime(s[..i], was, now, seen) && (s[i].recurring ==> Plus(now, was[s[i]].ms) >= seen)
  {
    assert s[..i + 1][..i] == s[..i] && (cbs + [cb])[..i] == cbs;
  }

  lemma {:induction false} TookEach(cbs: seq<Callback>, s: seq<Timer>, was: map<Timer, Fields>)
    requires Took(cbs, s, was)
    ensures |cbs| == |s| && forall j | 0 <= j < |s| :: s[j] in was && was[s[j]].cb == Some(cbs[j])
  {
    if s != [] {
      TookEach(cbs[..|s| - 1], s[..|s| - 1], was);
    }
  }

  lemma {:induction false} OnTimeEach(s: seq<Timer>, was: map<Timer, Fields>, now: u64, seen: nat)
    ensures OnTime(s, was, now, seen)
            <==> forall j | 0 <= j < |s| && s[j] in was && s[j].recurring :: Plus(now, was[s[j]].ms) >= seen
  {
    if s != [] {
      OnTimeEach(s[..|s| - 1], was, now, seen);
    }
  }

  ghost predicate Unique(s: seq<Timer>) {
    forall j, k | 0 <= j < k < |s| :: s[j] != s[k]
  }

  lemma UniqueFirst(s: seq<Timer>, i: nat)
    requires Unique(s) && i < |s|
    ensures s[i] in Elems(s[i..]) && s[i] in Elems(s) && Elems(s[i + 1..]) == Elems(s[i..]) - {s[i]}
  {
    ElemsIndex(s, s[i]);
    ElemsIndex(s[i + 1..], s[i]);
    assert s[i..][1..] == s[i + 1..];
  }

  lemma SplitDisjoint(s: seq<Timer>, n: nat)
    requires Sorted(s) && n <= |s|
    ensures Elems(s[..n]) !! Elems(s[n..]) && Sorted(s[n..]) && Unique(s[..n])
  {
    forall j, k | 0 <= j < k < |s| ensures s[j] != s[k] {
      assert Less(Of(s[j]), Of(s[k]));
    }
    forall t | t in Elems(s[..n]) ensures t !in Elems(s[n..]) {
      ElemsIndex(s[..n], t);
      ElemsIndex(s[n..], t);
    }
  }

  /** The clock went back by more than an hour; within the first hour of time, at all. */
  predicate SetBack(previous: u64, now: u64) {
    if previous >= 3600000 then now < previous - 3600000 else now < previous
  }

  /** A clock that goes back a little, unnoticed by detectClockRollover, loses a wakeup: the
      thread sleeps until 1100 although the refreshed timer is due at 600. */
  method ClockBackLosesWakeup() returns (m: TimerManager)
    ensures fresh(m) && m.Valid() && !m.WakeOk()
  {
    m := new TimerManager(1000);
    var t := m.AddTimer(100, 1, false, 1000, 64);
    ElemsOne(m.timers, t);
    var timeout := m.GetTimerNext(1000);
    var ok := m.Refresh(t, 500);
  }

  lemma ElemsOne(s: seq<Timer>, t: Timer)
    requires Elems(s) == {t}
    ensures s != [] && s[0] == t
  {
    ElemsIndex(s, t);
    if s != [] {
      ElemsIndex(s, s[0]);
    }
  }
}
