/**
  What the invariant means: statements about every state a run of the runtime can reach.
*/
module RuntimeTheorems {
  import opened Prelude
  import opened Runtime
  import opened RuntimeInvariant
  import opened RuntimeSteps

  // ---------------------------------------------------------------- the assertions of the source

  predicate Suspendable(st: FiberState) {
    st.INIT? || st.TERM? || st.EXCEPT?
  }

  /** The conditions the source asserts on the way through a step: reset and swapIn on
      taking up a task, the state check of both yields and of the end of a fiber, and the
      EXEC check of addEvent.  (The free event bit is what addEvent asks of its caller.) */
  ghost predicate AssertsHold(s: State, st: Step)
    requires Enabled(s, st)
  {
    match st
    case Loop(TakeUp(w)) =>
      var t := s.workers[w].pc.ticket.task;
      if t.Wake? then
        s.fibers[t.fiber].state.TERM? || s.fibers[t.fiber].state.EXCEPT?
        || s.fibers[t.fiber].state.INIT? || s.fibers[t.fiber].state.HOLD?
      else
        s.workers[w].spare.Some? ==>
          s.workers[w].spare.value in s.fibers && Suspendable(s.fibers[s.workers[w].spare.value].state)
    case Code(YieldHold(w)) => s.fibers[Cur(s, w)].state == EXEC(w)
    case Code(YieldReady(w)) => s.fibers[Cur(s, w)].state == EXEC(w)
    case Code(Finish(w, _)) => s.fibers[Cur(s, w)].state == EXEC(w)
    case Hook(CallSuspend(w, _)) => s.fibers[Cur(s, w)].state == EXEC(w)
    case Code(AddEventFiber(w, k)) => s.fibers[Cur(s, w)].state == EXEC(w)
    case Hook(CallRegister(w, c)) => s.fibers[Cur(s, w)].state == EXEC(w)
    case _ => true
  }

  lemma Executing(s: State, w: WorkerId)
    requires Reachable(s) && Running(s, w)
    ensures s.fibers[Cur(s, w)].state == EXEC(w)
  {
    ReachableInv(s);
  }

  lemma TakenUp(s: State, w: WorkerId)
    requires Reachable(s) && w in s.workers && s.workers[w].pc.Hand?
    ensures var t := s.workers[w].pc.ticket.task;
            t.Wake? ==> t.fiber in s.fibers && !s.fibers[t.fiber].state.EXEC?
  {
    ReachableInv(s);
    var tk := s.workers[w].pc.ticket;
    assert At(s.place, tk, InHand(w));
    assert CanResume(s.place[tk], tk.task, s.fibers);
  }

  /** At the top of the loop the recycled cb_fiber is absent, or INIT with no callback. */
  lemma SpareAtHead(s: State, w: WorkerId)
    requires Reachable(s) && w in s.workers && !s.workers[w].pc.Run? && s.workers[w].spare.Some?
    ensures var f := s.workers[w].spare.value;
            f in s.fibers && s.fibers[f].state == INIT && s.fibers[f].cb == None && s.fibers[f].wake == None
  {
    ReachableInv(s);
    var f := s.workers[w].spare.value;
    assert s.fibers[f].spareOf == Some(w);
    assert FiberOk(s.fibers[f]);
    if s.fibers[f].state.EXEC? {
      SpareNotElsewhere(s.workers, s.fibers, w, f);
    }
  }

  lemma SpareNotElsewhere(workers: map<WorkerId, Worker>, fibers: map<FiberId, Fiber>, w: WorkerId, f: FiberId)
    requires RunsOk(workers, fibers) && w in workers && f in fibers && fibers[f].spareOf == Some(w)
    requires fibers[f].state.EXEC? && SparesOk(workers, fibers)
    ensures workers[w].pc.Run?
  {
    var v := fibers[f].state.worker;
    assert workers[v].spare == Some(f);
  }

  /** No assertion of the source fails in any run. */
  lemma NoAssertFails(s: State, st: Step)
    requires Reachable(s) && Enabled(s, st)
    ensures AssertsHold(s, st)
  {
    match st
    case Loop(TakeUp(w)) =>
      TakenUp(s, w);
      if s.workers[w].spare.Some? {
        SpareAtHead(s, w);
      }
    case Code(YieldHold(w)) => Executing(s, w);
    case Code(YieldReady(w)) => Executing(s, w);
    case Code(Finish(w, _)) => Executing(s, w);
    case Hook(CallSuspend(w, _)) => Executing(s, w);
    case Code(AddEventFiber(w, k)) => Executing(s, w);
    case Hook(CallRegister(w, c)) => Executing(s, w);
    case _ =>
  }

  // ---------------------------------------------------------------- ownership

  /** No fiber is executing on two workers. */
  lemma OneOwner(s: State, v: WorkerId, w: WorkerId)
    requires Reachable(s) && Running(s, v) && Running(s, w) && Cur(s, v) == Cur(s, w)
    ensures v == w
  {
    Executing(s, v);
    Executing(s, w);
  }

  /** A fiber is marked EXEC exactly while a worker is inside its swapIn. */
  lemma ExecutesIffOwned(s: State, f: FiberId)
    requires Reachable(s) && f in s.fibers
    ensures s.fibers[f].state.EXEC? <==> exists w :: Running(s, w) && Cur(s, w) == f
  {
    if s.fibers[f].state.EXEC? {
      ReachableInv(s);
      assert Running(s, s.fibers[f].state.worker);
    }
    if w :| Running(s, w) && Cur(s, w) == f {
      Executing(s, w);
    }
  }

  // ---------------------------------------------------------------- conservation

  /** The ticket really is in this container of the runtime. */
  ghost predicate HeldAt(s: State, tk: Ticket, p: Place) {
    match p
    case Registered(k) => k in s.regs && s.regs[k] == tk
    case Armed(t) => t in s.timers && s.timers[t].ticket == tk
    case Collected(w) => w in s.workers && Holds(s.workers[w], tk)
    case Queued => InQueue(s.queue, tk)
    case InHand(w) => w in s.workers && s.workers[w].pc == Hand(tk)
    case Inside(f) => f in s.fibers && s.fibers[f].job == Some(tk)
    case _ => false
  }

  predicate Retired(p: Place) {
    p.Used? || p.Dropped? || p.Deleted? || p.Cancelled?
  }

  /** A ticket is in a container exactly if its history says so. */
  lemma HeldWhereRecorded(s: State, tk: Ticket, p: Place)
    requires Reachable(s)
    ensures HeldAt(s, tk, p) <==> At(s.place, tk, p) && !Retired(p)
  {
    ReachableInv(s);
    PlacesHold(s, tk, p);
  }

  lemma PlacesHold(s: State, tk: Ticket, p: Place)
    requires PlacesInv(s)
    ensures HeldAt(s, tk, p) <==> At(s.place, tk, p) && !Retired(p)
  {
  }

  /** Every unit of work ever issued is in exactly one container, or retired and in none;
      nothing else is in any container, and the queue lists nothing twice. */
  lemma Conservation(s: State, tk: Ticket)
    requires Reachable(s)
    ensures |s.place| == s.nextTicket
    ensures forall p, q | HeldAt(s, tk, p) && HeldAt(s, tk, q) :: p == q
    ensures tk in s.place && !Retired(s.place[tk]) ==> HeldAt(s, tk, s.place[tk])
    ensures tk in s.place && Retired(s.place[tk]) ==> forall p :: !HeldAt(s, tk, p)
    ensures tk !in s.place ==> forall p :: !HeldAt(s, tk, p)
    ensures forall i, j | 0 <= i < j < |s.queue| :: s.queue[i].ticket != s.queue[j].ticket
  {
    forall p ensures HeldAt(s, tk, p) <==> At(s.place, tk, p) && !Retired(p) {
      HeldWhereRecorded(s, tk, p);
    }
    IssuedCount(s);
  }

  lemma IssuedCount(s: State)
    requires Reachable(s)
    ensures |s.place| == s.nextTicket
    ensures forall i, j | 0 <= i < j < |s.queue| :: s.queue[i].ticket != s.queue[j].ticket
  {
    ReachableInv(s);
  }

  /** For every (fd, event): accepted adds = triggers + deletions + one if it is registered. */
  lemma Bookkeeping(s: State, k: Key)
    requires Reachable(s)
    ensures Count(s.adds, k) == Count(s.fires, k) + Count(s.dels, k) + (if k in s.regs then 1 else 0)
  {
    ReachableInv(s);
  }

  /** m_activeThreadCount counts the workers between the dequeue and their decrement,
      m_idleThreadCount those inside the idle fiber. */
  lemma Counters(s: State)
    requires Reachable(s)
    ensures s.active == |set w | w in s.workers && (s.workers[w].pc.Hand? || s.workers[w].pc.Run?)|
    ensures s.idle == |set w | w in s.workers && (s.workers[w].pc.Idling? || s.workers[w].pc.Polling?)|
  {
    ReachableInv(s);
    CountsAre(s.workers);
  }

  lemma CountsAre(workers: map<WorkerId, Worker>)
    ensures Busy(workers) == set w | w in workers && (workers[w].pc.Hand? || workers[w].pc.Run?)
    ensures InIdle(workers) == set w | w in workers && (workers[w].pc.Idling? || workers[w].pc.Polling?)
  {
  }

  /** A suspended fiber has at most one ticket that can still resume it. */
  lemma OneWake(s: State, t1: Ticket, t2: Ticket)
    requires Reachable(s) && t1 in s.place && t2 in s.place
    requires Carries(t1.task).Some? && Carries(t1.task) == Carries(t2.task)
    requires CanResume(s.place[t1], t1.task, s.fibers) && CanResume(s.place[t2], t2.task, s.fibers)
    ensures t1 == t2
  {
    ReachableInv(s);
  }

  // ---------------------------------------------------------------- shutdown

  /** When all workers have left `run`, nothing is queued, registered or armed. */
  lemma Drained(s: State)
    requires Reachable(s) && s.workers != map[] && forall w | w in s.workers :: s.workers[w].pc.Left?
    ensures s.stopping && s.queue == [] && s.regs == map[] && s.timers == map[] && s.active == 0 && s.idle == 0
    ensures forall tk | tk in s.place :: s.place[tk].Inside? || Retired(s.place[tk])
  {
    ReachableInv(s);
    assert forall w | w in s.workers :: s.workers[w].idleDone;
    assert Busy(s.workers) == {} && InIdle(s.workers) == {};
    forall tk | tk in s.place ensures s.place[tk].Inside? || Retired(s.place[tk]) {
      AllLeftPlace(s, tk);
    }
  }

  lemma AllLeftPlace(s: State, tk: Ticket)
    requires PlacesInv(s) && tk in s.place && forall w | w in s.workers :: s.workers[w].pc.Left?
    requires s.queue == [] && s.regs == map[] && s.timers == map[]
    ensures s.place[tk].Inside? || Retired(s.place[tk])
  {
  }

  /** A worker leaves only after stop was requested. */
  lemma LeavesOnlyWhenStopped(s: State, w: WorkerId)
    requires Reachable(s) && w in s.workers && s.workers[w].pc.Left?
    ensures s.stopping
  {
    ReachableInv(s);
  }

  // ---------------------------------------------------------------- progress

  function MoverCall(w: WorkerId, c: CallId, at: CallPoint): HookStep {
    match at
    case Trying => CallReturns(w, c)
    case Arming => CallArm(w, c)
    case Registering => CallRegisterFails(w, c)
    case Suspending => CallSuspend(w, c)
    case Woken => CallDisarm(w, c)
    case Checking => CallCheck(w, c)
    case Failing => CallFail(w, c)
  }

  predicate ByWorker(st: Step, w: WorkerId) {
    match st
    case Code(YieldHold(v)) => v == w
    case Code(_) => false
    case Hook(h) => h.w == w
    case Loop(l) => l.w == w
  }

  /** A fiber waiting to be resumed by a finished sleep exists, and so does the call whose
      time-out lambda is running. */
  lemma RunningFacts(s: State, w: WorkerId)
    requires Reachable(s) && w in s.workers && s.workers[w].pc.Run?
    ensures Running(s, w)
    ensures var p := s.fibers[Cur(s, w)].prog;
            && (p.InCall? ==> p.call in s.calls)
            && (p.Resuming? ==> p.sleeper in s.fibers)
            && (p.Cancelling? ==> p.call in s.calls)
  {
    ReachableInv(s);
    var g := s.workers[w].pc.fiber;
    if s.fibers[g].prog.Resuming? {
      var tk := s.fibers[g].job.value;
      assert At(s.place, tk, Inside(g));
      assert CanResume(s.place[tk], tk.task, s.fibers);
    }
  }

  lemma RunnerMoves(s: State, w: WorkerId) returns (st: Step)
    requires Reachable(s) && w in s.workers && s.workers[w].pc.Run?
    ensures Enabled(s, st) && ByWorker(st, w)
  {
    RunningFacts(s, w);
    match s.fibers[Cur(s, w)].prog
    case Free => st := Code(YieldHold(w));
    case InCall(c, at) => st := Hook(MoverCall(w, c, at));
    case Resuming(g) => st := Hook(ResumeSleeper(w, g));
    case Expiring(c) => st := Hook(TimeoutCheck(w, c));
    case Cancelling(c) => st := Hook(TimeoutCancel(w, c));
  }

  /** No worker is ever stuck: until it has left, some step of its own is enabled. */
  lemma NoWorkerStuck(s: State, w: WorkerId) returns (st: Step)
    requires Reachable(s) && w in s.workers && !s.workers[w].pc.Left?
    ensures Enabled(s, st) && ByWorker(st, w)
  {
    match s.workers[w].pc
    case Head => st := Loop(Dequeue(w));
    case Hand(_) => TakenUp(s, w); st := Loop(TakeUp(w));
    case NoTask => st := Loop(if s.workers[w].idleDone then Leave(w) else EnterIdle(w));
    case Idling => st := Loop(CheckStopping(w));
    case Polling(cbs) =>
      if cbs == {} {
        st := Loop(LeaveIdle(w));
      } else {
        var tk :| tk in cbs;
        st := Loop(SubmitCallback(w, tk));
      }
    case Run(_, _) => st := RunnerMoves(s, w);
  }
}
