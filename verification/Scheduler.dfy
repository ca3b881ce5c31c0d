/**
  Fiber and the body of Scheduler::run, as the code changes them in place.  Between two
  calls nothing else runs here: how workers interleave is the matter of module Runtime.
*/
module Scheduler {
  import opened Prelude
  import Runtime

  datatype FiberState = Init | Ready | Hold | Exec | Term | Except

  /** How a fiber gives control back. */
  datatype Ending = YieldsReady | YieldsHold | ReturnsNormally | Throws

  predicate Finished(st: FiberState) {
    st == Term || st == Except
  }

  class Fiber {
    var state: FiberState
    var cb: Option<Runtime.Callback>

    constructor (cb: Option<Runtime.Callback>)
      ensures state == Init && this.cb == cb
    {
      state, this.cb := Init, cb;
    }

    method Reset(cb: Option<Runtime.Callback>)
      requires Finished(state) || state == Init
      modifies this
      ensures state == Init && this.cb == cb
    {
      this.cb := cb;
      state := Init;
    }

    /** swapIn up to the return of control: the fiber runs its function until it yields,
        returns or throws. */
    method SwapIn(end: Ending)
      requires state != Exec
      modifies this
      ensures match end {
                case YieldsReady => state == Ready
                case YieldsHold => state == Hold
                case ReturnsNormally => state == Term
                case Throws => state == Except
              }
      ensures cb == if end == ReturnsNormally then None else old(cb)
    {
      state := Exec;
      match end {
        case YieldsReady => YieldToReady();
        case YieldsHold => YieldToHold();
        case ReturnsNormally => cb := None; state := Term;
        case Throws => state := Except;
      }
    }

    method YieldToReady()
      requires state == Exec
      modifies this`state
      ensures state == Ready
    {
      state := Ready;
    }

    method YieldToHold()
      requires state == Exec
      modifies this`state
      ensures state == Hold
    {
      state := Hold;
    }
  }

  datatype FiberOrCb = FiberOrCb(fiber: Fiber?, cb: Option<Runtime.Callback>, thread: int)

  predicate Holds(e: FiberOrCb) {
    e.fiber != null || e.cb.Some?
  }

  /** May the thread take the entry? */
  predicate Takes(e: FiberOrCb, thread: int)
    reads e.fiber
  {
    (e.thread == -1 || e.thread == thread) && !(e.fiber != null && e.fiber.state == Exec)
  }

  class Scheduler {
    var fibers: seq<FiberOrCb>   // m_fibers
    var active: int              // m_activeThreadCount

    ghost predicate Valid()
      reads this
    {
      forall e | e in fibers :: Holds(e)
    }

    constructor ()
      ensures Valid() && fibers == [] && active == 0
    {
      fibers, active := [], 0;
    }

    /** scheduleNoLock: an empty FiberOrCb is dropped. */
    method ScheduleNoLock(ft: FiberOrCb) returns (needTickle: bool)
      requires Valid()
      modifies this`fibers
      ensures Valid()
      ensures fibers == if ft.fiber == null && ft.cb == None then old(fibers) else old(fibers) + [ft]
      ensures needTickle <==> old(fibers) == []
    {
      needTickle := fibers == [];
      if ft.fiber != null || ft.cb.Some? {
        fibers := fibers + [ft];
      }
    }

    /** The scan of m_fibers: the first entry the thread may take leaves the list, all others
        keep their order; other threads are to be woken if an entry pinned to one of them
        was passed over, or if any entry is left behind the one taken. */
    method Dequeue(thread: int) returns (ft: Option<FiberOrCb>, tickle: bool, it: nat)
      requires Valid()
      modifies this
      ensures Valid() && it <= |old(fibers)|
      // pinned to another thread, or of a fiber that is executing
      ensures forall j | 0 <= j < it ::
                var e := old(fibers)[j];
                (e.thread != -1 && e.thread != thread) || (e.fiber != null && e.fiber.state == Exec)
      ensures ft == None <==> it == |old(fibers)|
      ensures ft == None ==> fibers == old(fibers) && active == old(active)
      ensures ft.Some? ==>
                && ft.value == old(fibers)[it] && (ft.value.thread == -1 || ft.value.thread == thread)
                && (ft.value.fiber != null ==> ft.value.fiber.state != Exec)
                && fibers == old(fibers)[..it] + old(fibers)[it + 1..]
                && active == old(active) + 1
      ensures tickle <==> (exists j :: 0 <= j < it && old(fibers)[j].thread != -1 && old(fibers)[j].thread != thread)
                          || it + 1 < |old(fibers)|
    {
      it, tickle, ft := 0, false, None;
      while it < |fibers|
        invariant it <= |fibers| && fibers == old(fibers) && active == old(active) && ft == None
        invariant forall j | 0 <= j < it :: !Takes(fibers[j], thread)
        invariant tickle <==> exists j :: 0 <= j < it && fibers[j].thread != -1 && fibers[j].thread != thread
      {
        var e := fibers[it];
        if e.thread != -1 && e.thread != thread {
          it := it + 1;
          tickle := true;
          continue;
        }
        assert Holds(e);
        if e.fiber != null && e.fiber.state == Exec {
          it := it + 1;
          continue;
        }
        ft := Some(e);
        fibers := fibers[..it] + fibers[it + 1..];
        active := active + 1;
        break;
      }
      tickle := tickle || it < |fibers|;
    }

    /** One pass of the loop of run after the dequeue: what was taken, `ft`, the recycled cb_fiber,
        and the way the fiber gives control back.  The result is the next cb_fiber. */
    method RunTask(ft: FiberOrCb, cbFiber: Fiber?, end: Ending) returns (next: Fiber?)
      requires Valid() && Holds(ft)
      requires ft.fiber != null ==> ft.fiber.state != Exec && ft.cb == None
      requires cbFiber != null ==> cbFiber.state == Init && cbFiber.cb == None && cbFiber != ft.fiber
      modifies this, ft.fiber, cbFiber
      ensures Valid() && active == old(active) - 1
      // the recycled fiber is absent, or INIT with no callback
      ensures next != null ==> next.state == Init && next.cb == None
      // a fiber that had finished is dropped, any other one runs
      ensures ft.fiber != null ==> next == cbFiber
      ensures ft.fiber != null && (old(ft.fiber.state) == Term || old(ft.fiber.state) == Except) ==>
                ft.fiber.state == old(ft.fiber.state) && fibers == old(fibers)
      ensures ft.fiber != null && old(ft.fiber.state) != Term && old(ft.fiber.state) != Except ==>
                && (end == YieldsReady ==> ft.fiber.state == Ready) && (end == YieldsHold ==> ft.fiber.state == Hold)
                && (end == ReturnsNormally ==> ft.fiber.state == Term) && (end == Throws ==> ft.fiber.state == Except)
                && fibers == old(fibers) + if end == YieldsReady then [FiberOrCb(ft.fiber, None, -1)] else []
      // a callback runs in the recycled fiber or a new one, which is kept only if it finished
      ensures ft.fiber == null ==>
                && (next != null <==> end == ReturnsNormally || end == Throws)
                && (next != null ==> next == cbFiber || (cbFiber == null && fresh(next)))
                && (end != YieldsReady ==> fibers == old(fibers))
                && (end == YieldsReady ==>
                      && |fibers| == |old(fibers)| + 1 && fibers[..|old(fibers)|] == old(fibers)
                      && var h := fibers[|old(fibers)|].fiber;
                      && h != null && fibers[|old(fibers)|] == FiberOrCb(h, None, -1)
                      && (h == cbFiber || (cbFiber == null && fresh(h)))
                      && h.state == Ready && h.cb == ft.cb)
                && (end == YieldsHold && cbFiber != null ==> cbFiber.state == Hold && cbFiber.cb == ft.cb)
    {
      next := cbFiber;
      if ft.fiber != null && !Finished(ft.fiber.state) {
        ft.fiber.SwapIn(end);
        active := active - 1;
        if ft.fiber.state == Ready {
          var tickle := ScheduleNoLock(FiberOrCb(ft.fiber, None, -1));
        } else if !Finished(ft.fiber.state) {
          ft.fiber.state := Hold;
        }
      } else if ft.cb.Some? {
        var host := cbFiber;
        if host != null {
          host.Reset(ft.cb);
        } else {
          host := new Fiber(ft.cb);
        }
        host.SwapIn(end);
        active := active - 1;
        if host.state == Ready {
          var tickle := ScheduleNoLock(FiberOrCb(host, None, -1));
          next := null;
        } else if Finished(host.state) {
          host.Reset(None);
          next := host;
        } else {
          host.state := Hold;
          next := null;
        }
      } else {
        active := active - 1;
      }
    }
  }
}
