/**
  The queue of the step system is m_fibers of class Scheduler: scheduling an entry and taking
  one are the same in both.
*/
module RuntimeQueue {
  import opened Prelude
  import opened Runtime
  import S = Scheduler

  /** The class's fibers by their ids: each marked as executing exactly if the runtime says so. */
  ghost predicate SameStates(objs: map<FiberId, S.Fiber>, fibers: map<FiberId, Fiber>)
    reads objs.Values
  {
    forall f | f in objs :: f in fibers && (objs[f].state == S.Exec <==> fibers[f].state.EXEC?)
  }

  /** The element of m_fibers that this entry of the queue stands for. */
  function Element(e: Entry, objs: map<FiberId, S.Fiber>): S.FiberOrCb
    requires e.ticket.task.Wake? ==> e.ticket.task.fiber in objs
  {
    var thread := if e.pin.Some? then e.pin.value else -1;
    match e.ticket.task
    case Wake(f) => S.FiberOrCb(objs[f], None, thread)
    case Invoke(cb) => S.FiberOrCb(null, Some(cb), thread)
  }

  predicate Known(e: Entry, objs: map<FiberId, S.Fiber>) {
    e.ticket.task.Wake? ==> e.ticket.task.fiber in objs
  }

  predicate SameQueue(list: seq<S.FiberOrCb>, queue: seq<Entry>, objs: map<FiberId, S.Fiber>) {
    |list| == |queue| && forall i | 0 <= i < |queue| :: Known(queue[i], objs) && list[i] == Element(queue[i], objs)
  }

  /** The class and the step system are in the same situation. */
  ghost predicate Agree(sch: S.Scheduler, s: State, objs: map<FiberId, S.Fiber>)
    reads sch, objs.Values
  {
    SameStates(objs, s.fibers) && SameQueue(sch.fibers, s.queue, objs) && sch.active == s.active
  }

  /** A thread may take the element exactly if the worker may take the entry. */
  lemma TakesIffEligible(e: Entry, w: WorkerId, fibers: map<FiberId, Fiber>, objs: map<FiberId, S.Fiber>)
    requires SameStates(objs, fibers) && Known(e, objs)
    ensures S.Takes(Element(e, objs), w) <==> Eligible(e, w, fibers)
  {
  }

  /** The first position that may be taken is the one the scan finds. */
  lemma {:induction false} FirstIsScan(q: seq<Entry>, w: WorkerId, fibers: map<FiberId, Fiber>, it: nat)
    requires it <= |q| && (it < |q| ==> Eligible(q[it], w, fibers))
    requires forall j | 0 <= j < it :: !Eligible(q[j], w, fibers)
    ensures it == Scan(q, w, fibers)
  {
    if Scan(q, w, fibers) != it {
      assert false;
    }
  }

  lemma HoldsElement(e: Entry, objs: map<FiberId, S.Fiber>)
    requires Known(e, objs)
    ensures S.Holds(Element(e, objs))
  {
  }

  /** The scan of run takes the same entry as the step, and afterwards both agree again. */
  method DequeueAgrees(sch: S.Scheduler, s: State, w: WorkerId, objs: map<FiberId, S.Fiber>)
      returns (ft: Option<S.FiberOrCb>)
    requires sch.Valid() && Agree(sch, s, objs) && LoopEnabled(s, Dequeue(w))
    modifies sch
    ensures sch.Valid() && Agree(sch, TakeFirst(s, w), objs)
    ensures var i := Scan(s.queue, w, s.fibers);
            ft == if i < |s.queue| then Some(Element(s.queue[i], objs)) else None
  {
    ghost var list := sch.fibers;
    forall j | 0 <= j < |s.queue| ensures S.Takes(list[j], w) <==> Eligible(s.queue[j], w, s.fibers) {
      TakesIffEligible(s.queue[j], w, s.fibers, objs);
    }
    var tickle, it;
    ft, tickle, it := sch.Dequeue(w);
    FirstIsScan(s.queue, w, s.fibers, it);
    TakenQueue(s, w);
    if it < |list| {
      WithoutOne(list, s.queue, it, objs);
    }
  }

  lemma WithoutOne(list: seq<S.FiberOrCb>, queue: seq<Entry>, i: nat, objs: map<FiberId, S.Fiber>)
    requires SameQueue(list, queue, objs) && i < |queue|
    ensures SameQueue(list[..i] + list[i + 1..], queue[..i] + queue[i + 1..], objs)
  {
  }

  lemma TakenQueue(s: State, w: WorkerId)
    requires w in s.workers
    ensures var i, s' := Scan(s.queue, w, s.fibers), TakeFirst(s, w);
            && s'.fibers == s.fibers
            && s'.queue == (if i < |s.queue| then s.queue[..i] + s.queue[i + 1..] else s.queue)
            && s'.active == (if i < |s.queue| then s.active + 1 else s.active)
  {
    var i := Scan(s.queue, w, s.fibers);
    if i < |s.queue| {
      assert TakeFirst(s, w) == Take(s, w, i);
    } else {
      assert TakeFirst(s, w) == Shift(s, w, s.workers[w].(pc := NoTask), s.idle);
    }
  }

  /** scheduleNoLock appends the element of the entry the step appends, and asks for a wakeup
      exactly if the queue was empty. */
  method ScheduleAgrees(sch: S.Scheduler, s: State, t: Task, pin: Option<WorkerId>, objs: map<FiberId, S.Fiber>)
      returns (needTickle: bool)
    requires sch.Valid() && Agree(sch, s, objs) && (t.Wake? ==> t.fiber in objs)
    modifies sch
    ensures sch.Valid() && Agree(sch, Push(s, t, pin), objs)
    ensures needTickle <==> s.queue == []
  {
    ghost var e := Entry(Ticket(s.nextTicket, t), pin);
    HoldsElement(e, objs);
    var thread: int := -1;
    if pin.Some? {
      thread := pin.value;
    }
    match t {
      case Wake(f) => needTickle := sch.ScheduleNoLock(S.FiberOrCb(objs[f], None, thread));
      case Invoke(cb) => needTickle := sch.ScheduleNoLock(S.FiberOrCb(null, Some(cb), thread));
    }
    PushedQueue(s, t, pin);
  }

  lemma PushedQueue(s: State, t: Task, pin: Option<WorkerId>)
    ensures var s' := Push(s, t, pin);
            && s'.queue == s.queue + [Entry(Ticket(s.nextTicket, t), pin)] && s'.active == s.active
            && s'.fibers.Keys == s.fibers.Keys && forall f | f in s.fibers :: s'.fibers[f].state == s.fibers[f].state
  {
  }
}
