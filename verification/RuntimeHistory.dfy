/**
  What a run does to tickets: every unit of work handed to the runtime goes through its
  stations in one direction, is scheduled at most once, and the queue is served in order.
*/
module RuntimeHistory {
  import opened Prelude
  import opened Runtime
  import opened RuntimeInvariant
  import opened RuntimeSteps

  /** The stations of a ticket, and the ways between them. */
  predicate Moves(p: Place, q: Place) {
    || p == q
    || (p.Registered? && (q.Queued? || q.Deleted?))
    || (p.Armed? && (q.Collected? || q.Cancelled?))
    || (p.Collected? && q.Queued?)
    || (p.Queued? && q.InHand?)
    || (p.InHand? && (q.Inside? || q.Used? || q.Dropped?))
    || (p.Inside? && q.Used?)
  }

  /** Where a ticket can be when it is issued; a copy of a recurring timer's callback
      starts as collected. */
  predicate Starts(p: Place) {
    p.Registered? || p.Armed? || p.Collected? || p.Queued?
  }

  ghost predicate Forward(place: map<Ticket, Place>, place': map<Ticket, Place>) {
    && (forall tk | tk in place :: tk in place' && Moves(place[tk], place'[tk]))
    && (forall tk | tk in place' && tk !in place :: Starts(place'[tk]))
  }

  lemma OneMove(place: map<Ticket, Place>, tk: Ticket, p: Place)
    requires if tk in place then Moves(place[tk], p) else Starts(p)
    ensures Forward(place, place[tk := p])
  {
  }

  lemma UserForward(s: State, u: UserStep)
    requires PlacesInv(s) && UserEnabled(s, u) && !u.Finish?
    ensures Forward(s.place, UserApply(s, u).place)
  {
    match u
    case ScheduleCallback(a, n, pin) => OneMove(s.place, Ticket(s.nextTicket, Invoke(User(n))), Queued);
    case ScheduleFiber(a, f, pin) => OneMove(s.place, Ticket(s.nextTicket, Wake(f)), Queued);
    case ScheduleNew(a, n, pin) => OneMove(s.place, Ticket(s.nextTicket, Wake(s.nextFiber)), Queued);
    case AddEventCallback(w, k, n) => OneMove(s.place, Ticket(s.nextTicket, Invoke(User(n))), Registered(k));
    case AddEventFiber(w, k) => OneMove(s.place, Ticket(s.nextTicket, Wake(Cur(s, w))), Registered(k));
    case DelEvent(a, k) => OneMove(s.place, s.regs[k], Deleted);
    case CancelEvent(a, k) => OneMove(s.place, s.regs[k], Queued);
    case AddTimer(a, n, recurring) => OneMove(s.place, Ticket(s.nextTicket, Invoke(User(n))), Armed(s.nextTimer));
    case CancelTimer(a, t) => OneMove(s.place, s.timers[t].ticket, Cancelled);
    case Sleep(w) => OneMove(s.place, Ticket(s.nextTicket, Invoke(Resume(Cur(s, w)))), Armed(s.nextTimer));
    case Stop =>
    case YieldHold(w) =>
    case YieldReady(w) => OneMove(s.place, Ticket(s.nextTicket, Wake(Cur(s, w))), Queued);
  }

  lemma FinishForward(s: State, w: WorkerId, threw: bool)
    requires InsideOk(s.fibers, s.place) && Running(s, w)
    ensures Forward(s.place, EndFinish(s, w, threw).place)
  {
    var job, s' := s.fibers[Cur(s, w)].job, EndFinish(s, w, threw);
    if job.Some? {
      OneMove(s.place, job.value, Used);
      assert s'.place == s.place[job.value := Used];
    } else {
      assert s'.place == s.place;
    }
  }

  lemma CancelTimerForward(s: State, c: CallId)
    requires TimersOk(s.timers, s.place, s.nextTimer) && c in s.calls
    ensures Forward(s.place, CancelCallTimer(s, c).place)
  {
    var t := s.calls[c].timer;
    if t.Some? && t.value in s.timers {
      OneMove(s.place, s.timers[t.value].ticket, Cancelled);
    }
  }

  lemma TimeoutForward(s: State, g: FiberId, c: CallId)
    requires RegsOk(s.regs, s.place) && g in s.fibers && c in s.calls
    ensures Forward(s.place, CancelCall(s, g, c).place)
  {
    if s.calls[c].key in s.regs {
      OneMove(s.place, s.regs[s.calls[c].key], Queued);
    }
  }

  lemma ArmForward(s: State, f: FiberId, c: CallId)
    requires IssuedOk(s.place, s.nextTicket) && f in s.fibers && c in s.calls
    ensures Forward(s.place, ArmCall(s, f, c).place)
  {
    var tk := Ticket(s.nextTicket, Invoke(Timeout(c)));
    OneMove(s.place, tk, Armed(s.nextTimer));
    if s.calls[c].limited {
      assert Arm(s, tk.task, false).place == s.place[tk := Armed(s.nextTimer)];
      assert ArmCall(s, f, c).place == Arm(s, tk.task, false).place;
    } else {
      assert ArmCall(s, f, c).place == s.place;
    }
  }

  lemma RegisterForward(s: State, f: FiberId, c: CallId)
    requires IssuedOk(s.place, s.nextTicket) && f in s.fibers && c in s.calls
    ensures Forward(s.place, RegisterCall(s, f, c).place)
  {
    OneMove(s.place, Ticket(s.nextTicket, Wake(f)), Registered(s.calls[c].key));
  }

  predicate MovesTickets(h: HookStep) {
    h.CallArm? || h.CallRegister? || h.CallFail? || h.CallDisarm? || h.ResumeSleeper? || h.TimeoutCancel?
  }

  lemma QuietEnds(s: State, f: FiberId, c: CallId)
    requires f in s.fibers && c in s.calls
    ensures CheckCall(s, f, c).place == s.place && CheckCall(s, f, c).queue == s.queue
  {
    assert EndCall(s, f, c, true).place == s.place;
    assert EndCall(s, f, c, false).place == s.place;
  }

  lemma QuietExpire(s: State, g: FiberId, c: CallId)
    requires g in s.fibers
    ensures ExpireCall(s, g, c).place == s.place && ExpireCall(s, g, c).queue == s.queue
  {
  }

  lemma QuietBegin(s: State, f: FiberId, k: Key, limited: bool, retries: bool)
    requires f in s.fibers
    ensures var s' := BeginCall(s, f, k, limited, retries); s'.place == s.place && s'.queue == s.queue
  {
  }

  lemma QuietHook(s: State, h: HookStep)
    requires HookEnabled(s, h) && !MovesTickets(h)
    ensures HookApply(s, h).place == s.place && HookApply(s, h).queue == s.queue
  {
    match h
    case CallBegin(w, k, limited, retries) => QuietBegin(s, Cur(s, w), k, limited, retries);
    case CallReturns(w, c) => assert EndCall(s, Cur(s, w), c, false).place == s.place;
    case CallBlocks(w, c) => assert SetProg(s, Cur(s, w), InCall(c, Arming)).place == s.place;
    case CallRegisterFails(w, c) => assert SetProg(s, Cur(s, w), InCall(c, Failing)).place == s.place;
    case CallSuspend(w, c) => assert EndHold(s, w).place == s.place;
    case CallCheck(w, c) => QuietEnds(s, Cur(s, w), c);
    case TimeoutCheck(w, c) => QuietExpire(s, Cur(s, w), c);
  }

  lemma HookForward(s: State, h: HookStep)
    requires PlacesInv(s) && HookEnabled(s, h)
    ensures Forward(s.place, HookApply(s, h).place)
  {
    if !MovesTickets(h) {
      QuietHook(s, h);
    } else {
      HookMoves(s, h);
    }
  }

  lemma HookMoves(s: State, h: HookStep)
    requires RegsOk(s.regs, s.place) && TimersOk(s.timers, s.place, s.nextTimer) && IssuedOk(s.place, s.nextTicket)
    requires HookEnabled(s, h) && MovesTickets(h)
    ensures Forward(s.place, HookApply(s, h).place)
  {
    match h
    case CallArm(w, c) => ArmForward(s, Cur(s, w), c);
    case CallRegister(w, c) => RegisterForward(s, Cur(s, w), c);
    case CallFail(w, c) => CancelTimerForward(s, c);
    case CallDisarm(w, c) => CancelTimerForward(s, c);
    case ResumeSleeper(w, f) => OneMove(s.place, Ticket(s.nextTicket, Wake(f)), Queued);
    case TimeoutCancel(w, c) => TimeoutForward(s, Cur(s, w), c);
  }

  lemma TakeUpForward(s: State, w: WorkerId)
    requires HandsOk(s.workers, s.place) && LoopEnabled(s, TakeUp(w))
    ensures Forward(s.place, TakeUpHand(s, w).place)
  {
    var tk := s.workers[w].pc.ticket;
    if tk.task.Invoke? {
      OneMove(s.place, tk, Inside(Host(s, w)));
      assert SwapInCallback(s, w).place == s.place[tk := Inside(Host(s, w))];
    } else if s.fibers[tk.task.fiber].state.TERM? || s.fibers[tk.task.fiber].state.EXCEPT? {
      OneMove(s.place, tk, Dropped);
      assert Drop(s, w).place == s.place[tk := Dropped];
    } else {
      OneMove(s.place, tk, Used);
      assert SwapIn(s, w).place == s.place[tk := Used];
    }
  }

  lemma DequeueForward(s: State, w: WorkerId)
    requires QueueOk(s.queue, s.place) && w in s.workers
    ensures Forward(s.place, TakeFirst(s, w).place)
  {
    var i := Scan(s.queue, w, s.fibers);
    if i < |s.queue| {
      OneMove(s.place, s.queue[i].ticket, InHand(w));
    }
  }

  lemma CollectForward(s: State, w: WorkerId, t: TimerId)
    requires TimersOk(s.timers, s.place, s.nextTimer) && IssuedOk(s.place, s.nextTicket)
    requires w in s.workers && s.workers[w].pc.Polling? && t in s.timers
    ensures Forward(s.place, Collect(s, w, t).place)
  {
    if s.timers[t].recurring {
      OneMove(s.place, Ticket(s.nextTicket, s.timers[t].ticket.task), Collected(w));
    } else {
      OneMove(s.place, s.timers[t].ticket, Collected(w));
    }
  }

  lemma SubmitForward(s: State, w: WorkerId, tk: Ticket)
    requires CollectedOk(s.workers, s.place) && w in s.workers && Holds(s.workers[w], tk)
    ensures Forward(s.place, Submit(s, w, tk).place)
  {
    OneMove(s.place, tk, Queued);
  }

  lemma LoopForward(s: State, l: LoopStep)
    requires PlacesInv(s) && LoopEnabled(s, l)
    ensures Forward(s.place, LoopApply(s, l).place)
  {
    match l
    case Dequeue(w) => DequeueForward(s, w);
    case TakeUp(w) => TakeUpForward(s, w);
    case CollectTimer(w, t) => CollectForward(s, w, t);
    case SubmitCallback(w, tk) => SubmitForward(s, w, tk);
    case Dispatch(w, k) => DispatchForward(s, k);
    case _ => QuietLoop(s, l);
  }

  lemma QuietLoop(s: State, l: LoopStep)
    requires LoopEnabled(s, l) && (l.EnterIdle? || l.Leave? || l.CheckStopping? || l.LeaveIdle?)
    ensures LoopApply(s, l).place == s.place && LoopApply(s, l).queue == s.queue
  {
    if l.CheckStopping? {
      if MayStop(s) {
        assert Check(s, l.w).place == s.place && Check(s, l.w).queue == s.queue;
      } else {
        assert Check(s, l.w).place == s.place && Check(s, l.w).queue == s.queue;
      }
    }
  }

  lemma DispatchForward(s: State, k: Key)
    requires RegsOk(s.regs, s.place) && k in s.regs
    ensures Forward(s.place, Fire(s, k).place)
  {
    OneMove(s.place, s.regs[k], Queued);
  }

  /** Every step moves tickets only along these ways and loses none. */
  lemma StepForward(s: State, st: Step)
    requires Inv(s) && Enabled(s, st)
    ensures Forward(s.place, Apply(s, st).place)
  {
    match st
    case Code(u) => if u.Finish? { FinishForward(s, u.w, u.threw); } else { UserForward(s, u); }
    case Hook(h) => HookForward(s, h);
    case Loop(l) => LoopForward(s, l);
  }

  // ---------------------------------------------------------------- exactly one wake

  /** The ticket has been put into the queue at some time. */
  predicate Sent(p: Place) {
    p.Queued? || p.InHand? || p.Inside? || p.Used? || p.Dropped?
  }

  predicate Lands(place: map<Ticket, Place>, place': map<Ticket, Place>, tk: Ticket) {
    !At(place, tk, Queued) && At(place', tk, Queued)
  }

  /** How many steps of the run put the ticket into the queue. */
  ghost function Schedulings(s: State, steps: seq<Step>, tk: Ticket): nat
    requires Valid(s, steps)
    decreases |steps|
  {
    if steps == [] then 0
    else
      var s' := Apply(s, steps[0]);
      (if Lands(s.place, s'.place, tk) then 1 else 0) + Schedulings(s', steps[1..], tk)
  }

  lemma ReachableMove(s: State, st: Step, tk: Ticket)
    requires Reachable(s) && Enabled(s, st) && tk in s.place
    ensures Reachable(Apply(s, st))
    ensures var place' := Apply(s, st).place;
            tk in place' && Moves(s.place[tk], place'[tk])
  {
    ReachableInv(s);
    StepForward(s, st);
    ReachableStep(s, st);
  }

  lemma {:induction false} SentOnce(s: State, steps: seq<Step>, tk: Ticket)
    requires Reachable(s) && Valid(s, steps) && tk in s.place
    ensures tk in After(s, steps).place
    ensures Schedulings(s, steps, tk) == if Sent(After(s, steps).place[tk]) && !Sent(s.place[tk]) then 1 else 0
    ensures Sent(s.place[tk]) ==> Sent(After(s, steps).place[tk])
    decreases |steps|
  {
    if steps != [] {
      ReachableMove(s, steps[0], tk);
      SentOnce(Apply(s, steps[0]), steps[1..], tk);
    }
  }

  lemma {:induction false} RegisteredStays(s: State, steps: seq<Step>, tk: Ticket, k: Key)
    requires Reachable(s) && Valid(s, steps) && tk in s.place
    requires s.place[tk] == Registered(k) || s.place[tk].Deleted? || Sent(s.place[tk])
    ensures tk in After(s, steps).place
    ensures var p := After(s, steps).place[tk]; p == Registered(k) || p.Deleted? || Sent(p)
    decreases |steps|
  {
    if steps != [] {
      ReachableMove(s, steps[0], tk);
      RegisteredStays(Apply(s, steps[0]), steps[1..], tk, k);
    }
  }

  lemma {:induction false} ArmedStays(s: State, steps: seq<Step>, tk: Ticket, t: TimerId)
    requires Reachable(s) && Valid(s, steps) && tk in s.place
    requires s.place[tk] == Armed(t) || s.place[tk].Cancelled? || s.place[tk].Collected? || Sent(s.place[tk])
    ensures tk in After(s, steps).place
    ensures var p := After(s, steps).place[tk]; p == Armed(t) || p.Cancelled? || p.Collected? || Sent(p)
    decreases |steps|
  {
    if steps != [] {
      ReachableMove(s, steps[0], tk);
      ArmedStays(Apply(s, steps[0]), steps[1..], tk, t);
    }
  }

  lemma RegisteredPlace(s: State, k: Key)
    requires Reachable(s) && k in s.regs
    ensures At(s.place, s.regs[k], Registered(k))
  {
    ReachableInv(s);
  }

  lemma PlaceRegistered(s: State, tk: Ticket)
    requires Reachable(s) && tk in s.place && s.place[tk].Registered?
    ensures s.place[tk].key in s.regs && s.regs[s.place[tk].key] == tk
  {
    ReachableInv(s);
  }

  lemma ArmedPlace(s: State, t: TimerId)
    requires Reachable(s) && t in s.timers
    ensures At(s.place, s.timers[t].ticket, Armed(t))
  {
    ReachableInv(s);
  }

  lemma PlaceArmed(s: State, tk: Ticket)
    requires Reachable(s) && tk in s.place && s.place[tk].Armed?
    ensures s.place[tk].timer in s.timers && s.timers[s.place[tk].timer].ticket == tk
  {
    ReachableInv(s);
  }

  /** Every registration accepted by addEvent is, at any later time, exactly one of: still
      registered under its key, deleted and never scheduled, or scheduled exactly once. */
  lemma ExactlyOneWake(s: State, steps: seq<Step>, k: Key)
    requires Reachable(s) && Valid(s, steps) && k in s.regs
    ensures var tk, s' := s.regs[k], After(s, steps);
            && tk in s'.place
            && match s'.place[tk] {
                 case Registered(k') => k' == k && k in s'.regs && s'.regs[k] == tk && Schedulings(s, steps, tk) == 0
                 case Deleted => Schedulings(s, steps, tk) == 0
                 case p => Sent(p) && Schedulings(s, steps, tk) == 1
               }
  {
    var tk := s.regs[k];
    RegisteredPlace(s, k);
    SentOnce(s, steps, tk);
    RegisteredStays(s, steps, tk, k);
    if After(s, steps).place[tk].Registered? {
      ReachableRun(s, steps);
      PlaceRegistered(After(s, steps), tk);
    }
  }

  /** A timer's callback is, at any later time: still armed, cancelled and never scheduled,
      collected and about to be scheduled, or scheduled exactly once. */
  lemma ExactlyOneExpiry(s: State, steps: seq<Step>, t: TimerId)
    requires Reachable(s) && Valid(s, steps) && t in s.timers
    ensures var tk, s' := s.timers[t].ticket, After(s, steps);
            && tk in s'.place
            && match s'.place[tk] {
                 case Armed(t') => t' == t && t in s'.timers && s'.timers[t].ticket == tk && Schedulings(s, steps, tk) == 0
                 case Cancelled => Schedulings(s, steps, tk) == 0
                 case Collected(_) => Schedulings(s, steps, tk) == 0
                 case p => Sent(p) && Schedulings(s, steps, tk) == 1
               }
  {
    var tk := s.timers[t].ticket;
    ArmedPlace(s, t);
    SentOnce(s, steps, tk);
    ArmedStays(s, steps, tk, t);
    if After(s, steps).place[tk].Armed? {
      ReachableRun(s, steps);
      PlaceArmed(After(s, steps), tk);
    }
  }

  // ---------------------------------------------------------------- the queue

  /** Entry i leaves the queue for the hand of worker w, which may take it and no earlier one. */
  ghost predicate Taken(s: State, s': State, w: WorkerId, i: nat) {
    && w in s.workers && w in s'.workers && i < |s.queue|
    && Eligible(s.queue[i], w, s.fibers)
    && (forall j | 0 <= j < i :: !Eligible(s.queue[j], w, s.fibers))
    && s'.queue == s.queue[..i] + s.queue[i + 1..]
    && s'.workers[w].pc == Hand(s.queue[i].ticket)
  }

  /** The thread a step asks for: only the schedule calls of user code ask for any. */
  function PinOf(st: Step): Option<WorkerId> {
    match st
    case Code(ScheduleCallback(_, _, pin)) => pin
    case Code(ScheduleFiber(_, _, pin)) => pin
    case Code(ScheduleNew(_, _, pin)) => pin
    case _ => None
  }

  /** A step leaves the queue alone, appends one entry with this pin, or lets a worker take the
      first entry it may take; the others keep their order. */
  ghost predicate QueueMoves(s: State, s': State, pin: Option<WorkerId>) {
    || s'.queue == s.queue
    || (exists e: Entry :: e.pin == pin && s'.queue == s.queue + [e])
    || (exists w, i :: Taken(s, s', w, i))
  }

  lemma Appends(s: State, s': State, e: Entry)
    requires s'.queue == s.queue + [e]
    ensures QueueMoves(s, s', e.pin)
  {
  }

  lemma UserQueue(s: State, u: UserStep)
    requires UserEnabled(s, u)
    ensures QueueMoves(s, UserApply(s, u), PinOf(Code(u)))
  {
    var s' := UserApply(s, u);
    match u
    case ScheduleCallback(a, n, pin) => Appends(s, s', Entry(Ticket(s.nextTicket, Invoke(User(n))), pin));
    case ScheduleFiber(a, f, pin) => Appends(s, s', Entry(Ticket(s.nextTicket, Wake(f)), pin));
    case ScheduleNew(a, n, pin) => Appends(s, s', Entry(Ticket(s.nextTicket, Wake(s.nextFiber)), pin));
    case CancelEvent(a, k) => Appends(s, s', Entry(s.regs[k], None));
    case YieldReady(w) => Appends(s, s', Entry(Ticket(s.nextTicket, Wake(Cur(s, w))), None));
    case _ =>
  }

  lemma HookQueue(s: State, h: HookStep)
    requires HookEnabled(s, h)
    ensures QueueMoves(s, HookApply(s, h), None)
  {
    match h
    case ResumeSleeper(w, f) => Appends(s, FinishResume(s, Cur(s, w), f), Entry(Ticket(s.nextTicket, Wake(f)), None));
    case TimeoutCancel(w, c) => TimeoutQueue(s, Cur(s, w), c);
    case CallArm(w, c) => assert ArmCall(s, Cur(s, w), c).queue == s.queue;
    case CallRegister(w, c) => assert RegisterCall(s, Cur(s, w), c).queue == s.queue;
    case CallFail(w, c) => assert CancelCallTimer(s, c).queue == s.queue;
    case CallDisarm(w, c) => assert CancelCallTimer(s, c).queue == s.queue;
    case _ => QuietHook(s, h);
  }

  lemma TimeoutQueue(s: State, g: FiberId, c: CallId)
    requires g in s.fibers && c in s.calls
    ensures QueueMoves(s, CancelCall(s, g, c), None)
  {
    var s1, k := SetProg(s, g, Free), s.calls[c].key;
    if k in s.regs {
      assert CancelCall(s, g, c) == Fire(s1, k);
      Appends(s, CancelCall(s, g, c), Entry(s.regs[k], None));
    } else {
      assert CancelCall(s, g, c) == s1;
    }
  }

  lemma DequeueQueue(s: State, w: WorkerId)
    requires w in s.workers
    ensures QueueMoves(s, TakeFirst(s, w), None)
  {
    var i := Scan(s.queue, w, s.fibers);
    if i < |s.queue| {
      assert Taken(s, TakeFirst(s, w), w, i);
    }
  }

  lemma LoopQueue(s: State, l: LoopStep)
    requires LoopEnabled(s, l)
    ensures QueueMoves(s, LoopApply(s, l), None)
  {
    if l.Dequeue? {
      DequeueQueue(s, l.w);
    } else if l.SubmitCallback? {
      Appends(s, LoopApply(s, l), Entry(l.tk, None));
    } else if l.Dispatch? {
      Appends(s, LoopApply(s, l), Entry(s.regs[l.k], None));
    } else if l.TakeUp? {
      TakeUpQueue(s, l.w);
    } else if l.CollectTimer? {
      CollectQueue(s, l.w, l.t);
    } else {
      QuietLoop(s, l);
    }
  }

  lemma TakeUpQueue(s: State, w: WorkerId)
    requires LoopEnabled(s, TakeUp(w))
    ensures TakeUpHand(s, w).queue == s.queue
  {
    var t := s.workers[w].pc.ticket.task;
    if t.Invoke? {
      assert SwapInCallback(s, w).queue == s.queue;
    } else if s.fibers[t.fiber].state.TERM? || s.fibers[t.fiber].state.EXCEPT? {
      assert Drop(s, w).queue == s.queue;
    } else {
      SwapQueue(s, w);
    }
  }

  lemma SwapQueue(s: State, w: WorkerId)
    requires LoopEnabled(s, TakeUp(w)) && s.workers[w].pc.ticket.task.Wake?
    ensures SwapIn(s, w).queue == s.queue
  {
  }

  lemma CollectQueue(s: State, w: WorkerId, t: TimerId)
    requires LoopEnabled(s, CollectTimer(w, t))
    ensures Collect(s, w, t).queue == s.queue
  {
    if s.timers[t].recurring {
      assert Collect(s, w, t).queue == s.queue;
    } else {
      assert Collect(s, w, t).queue == s.queue;
    }
  }

  lemma StepQueue(s: State, st: Step)
    requires Enabled(s, st)
    ensures QueueMoves(s, Apply(s, st), PinOf(st))
  {
    match st
    case Code(u) => UserQueue(s, u);
    case Hook(h) => HookQueue(s, h);
    case Loop(l) => LoopQueue(s, l);
  }

  lemma StaysQueued(s: State, s': State, pin: Option<WorkerId>, e: Entry, f: FiberId)
    requires QueueMoves(s, s', pin) && e in s.queue && e.ticket.task == Wake(f) && f in s.fibers && s.fibers[f].state.EXEC?
    ensures e in s'.queue
  {
    var j :| 0 <= j < |s.queue| && s.queue[j] == e;
    if s'.queue == s.queue {
    } else if x: Entry :| x.pin == pin && s'.queue == s.queue + [x] {
      assert s'.queue[j] == e;
    } else {
      var w, i :| Taken(s, s', w, i);
      assert !Eligible(e, w, s.fibers);
      assert s'.queue[if j < i then j else j - 1] == e;
    }
  }

  /** A fiber queued while it is still executing stays in the queue for as long as it does. */
  lemma QueuedWhileExecuting(s: State, st: Step, e: Entry, f: FiberId)
    requires Enabled(s, st) && e in s.queue && e.ticket.task == Wake(f) && f in s.fibers && s.fibers[f].state.EXEC?
    ensures e in Apply(s, st).queue
  {
    StepQueue(s, st);
    StaysQueued(s, Apply(s, st), PinOf(st), e, f);
  }
}
