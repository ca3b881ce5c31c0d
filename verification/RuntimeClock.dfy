/**
  The timers of the step system are those of class TimerManager, with time left out: adding,
  cancelling and collecting timers are the same in both.
*/
module RuntimeClock {
  import opened Runtime
  import T = TimerManager

  predicate IdOf(timers: map<TimerId, Timer>, objs: map<TimerId, T.Timer>, t: TimerId, x: T.Timer) {
    t in timers && t in objs && objs[t] == x
  }

  ghost predicate HasId(timers: map<TimerId, Timer>, objs: map<TimerId, T.Timer>, x: T.Timer) {
    exists t :: IdOf(timers, objs, t, x)
  }

  /** The timer object of every armed timer: exactly the set of the manager. */
  ghost predicate Agree(m: T.TimerManager, timers: map<TimerId, Timer>, objs: map<TimerId, T.Timer>)
    reads m
  {
    && timers.Keys <= objs.Keys
    && (forall t, u | t in timers && u in timers && objs[t] == objs[u] :: t == u)
    && (forall t | t in timers :: objs[t] in T.Elems(m.timers) && objs[t].recurring == timers[t].recurring)
    && (forall x | x in T.Elems(m.timers) :: HasId(timers, objs, x))
  }

  /** The steps with which an idle worker collects these timers. */
  function CollectSteps(w: WorkerId, ids: seq<TimerId>): (steps: seq<Step>)
    ensures |steps| == |ids|
  {
    if ids == [] then [] else [Loop(CollectTimer(w, ids[0]))] + CollectSteps(w, ids[1..])
  }

  predicate OneShot(timers: map<TimerId, Timer>, ids: seq<TimerId>, t: TimerId) {
    t in timers && t in ids && !timers[t].recurring
  }

  function Remaining(timers: map<TimerId, Timer>, ids: seq<TimerId>): map<TimerId, Timer> {
    map t | t in timers && !OneShot(timers, ids, t) :: timers[t]
  }

  predicate Distinct(ids: seq<TimerId>) {
    forall i, j | 0 <= i < j < |ids| :: ids[i] != ids[j]
  }

  lemma CollectTimers(s: State, w: WorkerId, t: TimerId)
    requires LoopEnabled(s, CollectTimer(w, t))
    ensures var s' := Collect(s, w, t);
            && s'.timers == (if s.timers[t].recurring then s.timers else s.timers - {t})
            && w in s'.workers && s'.workers[w].pc.Polling?
  {
    if s.timers[t].recurring {
      assert Collect(s, w, t).timers == s.timers;
    } else {
      assert Collect(s, w, t).timers == s.timers - {t};
    }
  }

  /** Any armed timers may be collected one after the other; the one-shots among them are gone. */
  lemma {:induction false} CollectRun(s: State, w: WorkerId, ids: seq<TimerId>)
    requires w in s.workers && s.workers[w].pc.Polling? && Distinct(ids) && forall i | 0 <= i < |ids| :: ids[i] in s.timers
    ensures Valid(s, CollectSteps(w, ids))
    ensures After(s, CollectSteps(w, ids)).timers == Remaining(s.timers, ids)
    decreases |ids|
  {
    if ids == [] {
      assert Remaining(s.timers, ids) == s.timers;
    } else {
      var st, s' := Loop(CollectTimer(w, ids[0])), Collect(s, w, ids[0]);
      CollectTimers(s, w, ids[0]);
      CollectRun(s', w, ids[1..]);
      assert CollectSteps(w, ids)[0] == st && CollectSteps(w, ids)[1..] == CollectSteps(w, ids[1..]);
      assert Apply(s, st) == s';
      RemainingNext(s.timers, s'.timers, ids);
    }
  }

  lemma RemainingNext(timers: map<TimerId, Timer>, timers': map<TimerId, Timer>, ids: seq<TimerId>)
    requires Distinct(ids) && ids != [] && ids[0] in timers
    requires timers' == if timers[ids[0]].recurring then timers else timers - {ids[0]}
    ensures Remaining(timers', ids[1..]) == Remaining(timers, ids)
  {
    assert ids == [ids[0]] + ids[1..];
  }

  /** The ids of the timers in a list of objects. */
  lemma {:induction false} IdsOf(xs: seq<T.Timer>, timers: map<TimerId, Timer>, objs: map<TimerId, T.Timer>) returns (ids: seq<TimerId>)
    requires timers.Keys <= objs.Keys && T.Unique(xs)
    requires forall i | 0 <= i < |xs| :: HasId(timers, objs, xs[i])
    ensures |ids| == |xs| && Distinct(ids) && forall i | 0 <= i < |xs| :: ids[i] in timers && objs[ids[i]] == xs[i]
    decreases |xs|
  {
    if xs == [] {
      ids := [];
    } else {
      var n := |xs| - 1;
      forall i | 0 <= i < n ensures HasId(timers, objs, xs[..n][i]) {
        assert HasId(timers, objs, xs[i]);
      }
      ids := IdsOf(xs[..n], timers, objs);
      assert HasId(timers, objs, xs[n]);
      var t :| IdOf(timers, objs, t, xs[n]);
      ids := ids + [t];
    }
  }

  /** addTimer arms the timer the step arms. */
  method AddAgrees(m: T.TimerManager, s: State, a: Actor, n: nat, recurring: bool, ms: T.u64, cb: T.Callback, now: T.u64,
                   addr: nat, ghost objs: map<TimerId, T.Timer>)
      returns (x: T.Timer)
    requires m.Valid() && Agree(m, s.timers, objs) && s.nextTimer !in s.timers && Enabled(s, Code(AddTimer(a, n, recurring)))
    requires forall u | u in T.Elems(m.timers) :: u.addr != addr
    modifies m`timers, m`tickled, m`notified, m`all, m`byAddr, m`clock, m`honest
    ensures m.Valid() && Agree(m, Apply(s, Code(AddTimer(a, n, recurring))).timers, objs[s.nextTimer := x])
  {
    ghost var before := T.Elems(m.timers);
    x := m.AddTimer(ms, cb, recurring, now, addr);
    ghost var tm := Timer(Ticket(s.nextTicket, Invoke(User(n))), recurring);
    AgreesWithOneMore(before, m, s.timers, objs, s.nextTimer, tm, x);
    assert Apply(s, Code(AddTimer(a, n, recurring))).timers == s.timers[s.nextTimer := tm];
  }

  lemma AgreesWithOneMore(before: set<T.Timer>, m: T.TimerManager, timers: map<TimerId, Timer>, objs: map<TimerId, T.Timer>,
                          id: TimerId, tm: Timer, x: T.Timer)
    requires timers.Keys <= objs.Keys && id !in timers && x !in before && x.recurring == tm.recurring
    requires forall t, u | t in timers && u in timers && objs[t] == objs[u] :: t == u
    requires forall t | t in timers :: objs[t] in before && objs[t].recurring == timers[t].recurring
    requires forall y | y in before :: HasId(timers, objs, y)
    requires T.Elems(m.timers) == before + {x}
    ensures Agree(m, timers[id := tm], objs[id := x])
  {
    forall y | y in T.Elems(m.timers) ensures HasId(timers[id := tm], objs[id := x], y) {
      if y == x {
        assert IdOf(timers[id := tm], objs[id := x], id, y);
      } else {
        var t :| IdOf(timers, objs, t, y);
        assert IdOf(timers[id := tm], objs[id := x], t, y);
      }
    }
  }

  /** cancel takes out the timer the step takes out. */
  method CancelAgrees(m: T.TimerManager, s: State, id: TimerId, x: T.Timer, ghost objs: map<TimerId, T.Timer>) returns (ok: bool)
    requires m.Valid() && Agree(m, s.timers, objs) && id in s.timers && objs[id] == x && x in m.all
    modifies m`timers, m`clock, m`honest, x`cb, x`cancelled
    ensures m.Valid() && Agree(m, Disarm(s, id).timers, objs) && ok
  {
    ghost var before := T.Elems(m.timers);
    m.AtMostOnce(x);
    ok := m.Cancel(x);
    forall y | y in T.Elems(m.timers) ensures HasId(s.timers - {id}, objs, y) {
      var t :| IdOf(s.timers, objs, t, y);
      assert IdOf(s.timers - {id}, objs, t, y);
    }
  }

  /** listExpiredCb collects timers the worker may collect one by one, and afterwards both agree
      again: one-shots are gone, recurring ones and all others are still armed. */
  method ExpireAgrees(m: T.TimerManager, s: State, w: WorkerId, now: T.u64, probe: nat, ghost objs: map<TimerId, T.Timer>)
      returns (cbs: seq<T.Callback>, ghost ids: seq<TimerId>)
    requires m.Valid() && Agree(m, s.timers, objs) && w in s.workers && s.workers[w].pc.Polling?
    modifies m`timers, m`previousTime, m`clock, m`honest, m.all
    ensures m.Valid() && |cbs| == |ids| <= |old(m.timers)|
    ensures forall i | 0 <= i < |ids| :: ids[i] in s.timers && objs[ids[i]] == old(m.timers)[i]
    ensures Valid(s, CollectSteps(w, ids)) && Agree(m, After(s, CollectSteps(w, ids)).timers, objs)
  {
    ghost var xs, members, all := m.timers, T.Elems(m.timers), m.all;
    ghost var every := IdsOfAll(m, s.timers, objs);
    var n;
    cbs, n := Expire(m, now, probe);
    ids := every[..n];
    CollectRun(s, w, ids);
    StillAgree(m, members, all, xs[..n], s.timers, objs, ids);
  }

  /** What listExpiredCb does to the set. */
  method Expire(m: T.TimerManager, now: T.u64, probe: nat) returns (cbs: seq<T.Callback>, n: nat)
    requires m.Valid()
    modifies m`timers, m`previousTime, m`clock, m`honest, m.all
    ensures m.Valid() && |cbs| == n <= |old(m.timers)|
    ensures T.Elems(m.timers) <= m.all
    ensures forall x | x in m.all :: x in T.Elems(m.timers) <==> x in old(T.Elems(m.timers)) && (x in old(m.timers)[..n] ==> x.recurring)
  {
    ghost var xs, members, was := m.timers, T.Elems(m.timers), T.Snapshot(m.all);
    cbs, n := m.ListExpired(now, probe);
    T.TookEach(cbs, xs[..n], was);
    T.ElemsSplit(xs, n);
    Survivors(m, members, m.all, was, xs[..n], now);
  }

  lemma IdsOfAll(m: T.TimerManager, timers: map<TimerId, Timer>, objs: map<TimerId, T.Timer>) returns (ids: seq<TimerId>)
    requires m.Valid() && Agree(m, timers, objs)
    ensures |ids| == |m.timers| && Distinct(ids)
    ensures forall i | 0 <= i < |ids| :: ids[i] in timers && objs[ids[i]] == m.timers[i]
  {
    var xs := m.timers;
    T.SplitDisjoint(xs, |xs|);
    assert xs[..|xs|] == xs;
    forall i | 0 <= i < |xs| ensures HasId(timers, objs, xs[i]) {
      T.ElemsIndex(xs, xs[i]);
    }
    ids := IdsOf(xs, timers, objs);
  }

  /** Of the timers collected the recurring ones are back in the set. */
  lemma Survivors(m: T.TimerManager, members: set<T.Timer>, all: set<T.Timer>, was: map<T.Timer, T.Fields>,
                  expired: seq<T.Timer>, now: T.u64)
    requires m.all == all <= was.Keys && T.Elems(expired) <= members && m.Strays(was, members, T.Elems(expired), {}, now) == {}
    ensures forall x | x in all :: x in T.Elems(m.timers) <==> x in members && (x in expired ==> x.recurring)
  {
    forall x | x in all ensures x in T.Elems(m.timers) <==> x in members && (x in expired ==> x.recurring) {
      T.ElemsIndex(expired, x);
      assert x !in m.Strays(was, members, T.Elems(expired), {}, now);
    }
  }

  lemma StillAgree(m: T.TimerManager, members: set<T.Timer>, all: set<T.Timer>, expired: seq<T.Timer>,
                   timers: map<TimerId, Timer>, objs: map<TimerId, T.Timer>, ids: seq<TimerId>)
    requires timers.Keys <= objs.Keys && members <= all && T.Elems(m.timers) <= all
    requires forall t, u | t in timers && u in timers && objs[t] == objs[u] :: t == u
    requires forall t | t in timers :: objs[t] in members && objs[t].recurring == timers[t].recurring
    requires forall y | y in members :: HasId(timers, objs, y)
    requires |ids| == |expired| && forall i | 0 <= i < |ids| :: ids[i] in timers && objs[ids[i]] == expired[i]
    requires forall x | x in all :: x in T.Elems(m.timers) <==> x in members && (x in expired ==> x.recurring)
    ensures Agree(m, Remaining(timers, ids), objs)
  {
    forall t | t in timers ensures t in ids <==> objs[t] in expired {
      if objs[t] in expired {
        var i :| 0 <= i < |expired| && expired[i] == objs[t];
        assert ids[i] == t;
      }
    }
    forall y | y in T.Elems(m.timers) ensures HasId(Remaining(timers, ids), objs, y) {
      var t :| IdOf(timers, objs, t, y);
      assert IdOf(Remaining(timers, ids), objs, t, y);
    }
  }
}
