/**
  What each step does, said by its outcome: the one ticket it issues or moves, the entry a worker
  takes, the timer that is armed or stays armed, the fiber it leaves behind, and when it stops.
*/
module RuntimeEffects {
  import opened Prelude
  import opened Runtime
  import opened RuntimeHistory

  /** The one ticket that a step issues or moves, and where it is then. */
  datatype Effect = Nothing | Puts(tk: Ticket, at: Place)

  function Issues(s: State, t: Task, at: Place): Effect {
    Puts(Ticket(s.nextTicket, t), at)
  }

  function UserEffect(s: State, u: UserStep): Effect
    requires UserEnabled(s, u)
  {
    match u
    case ScheduleCallback(a, n, pin) => Issues(s, Invoke(User(n)), Queued)
    case ScheduleFiber(a, f, pin) => Issues(s, Wake(f), Queued)
    case ScheduleNew(a, n, pin) => Issues(s, Wake(s.nextFiber), Queued)
    case AddEventCallback(w, k, n) => Issues(s, Invoke(User(n)), Registered(k))
    case AddEventFiber(w, k) => Issues(s, Wake(Cur(s, w)), Registered(k))
    case DelEvent(a, k) => Puts(s.regs[k], Deleted)
    case CancelEvent(a, k) => Puts(s.regs[k], Queued)
    case AddTimer(a, n, recurring) => Issues(s, Invoke(User(n)), Armed(s.nextTimer))
    case CancelTimer(a, t) => Puts(s.timers[t].ticket, Cancelled)
    case Sleep(w) => Issues(s, Invoke(Resume(Cur(s, w))), Armed(s.nextTimer))
    case Stop => Nothing
    case YieldHold(w) => Nothing
    case YieldReady(w) => Issues(s, Wake(Cur(s, w)), Queued)
    case Finish(w, threw) => if s.fibers[Cur(s, w)].job.Some? then Puts(s.fibers[Cur(s, w)].job.value, Used) else Nothing
  }

  /** timer->cancel() of a call. */
  function DisarmEffect(s: State, c: CallId): Effect
    requires c in s.calls
  {
    var t := s.calls[c].timer;
    if t.Some? && t.value in s.timers then Puts(s.timers[t.value].ticket, Cancelled) else Nothing
  }

  function HookEffect(s: State, h: HookStep): Effect
    requires HookEnabled(s, h)
  {
    match h
    case CallArm(w, c) => if s.calls[c].limited then Issues(s, Invoke(Timeout(c)), Armed(s.nextTimer)) else Nothing
    case CallRegister(w, c) => Issues(s, Wake(Cur(s, w)), Registered(s.calls[c].key))
    case CallFail(w, c) => DisarmEffect(s, c)
    case CallDisarm(w, c) => DisarmEffect(s, c)
    case ResumeSleeper(w, f) => Issues(s, Wake(f), Queued)
    case TimeoutCancel(w, c) => if s.calls[c].key in s.regs then Puts(s.regs[s.calls[c].key], Queued) else Nothing
    case _ => Nothing
  }

  function LoopEffect(s: State, l: LoopStep): Effect
    requires LoopEnabled(s, l)
  {
    match l
    case Dequeue(w) =>
      var i := Scan(s.queue, w, s.fibers);
      if i < |s.queue| then Puts(s.queue[i].ticket, InHand(w)) else Nothing
    case TakeUp(w) =>
      var tk := s.workers[w].pc.ticket;
      Puts(tk, if tk.task.Invoke? then Inside(if s.workers[w].spare.Some? then s.workers[w].spare.value else s.nextFiber)
               else if s.fibers[tk.task.fiber].state.TERM? || s.fibers[tk.task.fiber].state.EXCEPT? then Dropped
               else Used)
    case CollectTimer(w, t) =>
      if s.timers[t].recurring then Issues(s, s.timers[t].ticket.task, Collected(w)) else Puts(s.timers[t].ticket, Collected(w))
    case SubmitCallback(w, tk) => Puts(tk, Queued)
    case Dispatch(w, k) => Puts(s.regs[k], Queued)
    case _ => Nothing
  }

  function EffectOf(s: State, st: Step): Effect
    requires Enabled(s, st)
  {
    match st
    case Code(u) => UserEffect(s, u)
    case Hook(h) => HookEffect(s, h)
    case Loop(l) => LoopEffect(s, l)
  }

  predicate Happens(place: map<Ticket, Place>, place': map<Ticket, Place>, e: Effect) {
    match e
    case Nothing => place' == place
    case Puts(tk, at) => place' == place[tk := at]
  }

  lemma UserPlace(s: State, u: UserStep)
    requires UserEnabled(s, u)
    ensures Happens(s.place, UserApply(s, u).place, UserEffect(s, u))
  {
    match u
    case ScheduleNew(a, n, pin) =>
      assert Spawn(s, n, pin).place == s.place[Ticket(s.nextTicket, Wake(s.nextFiber)) := Queued];
    case YieldReady(w) => YieldPlace(s, w);
    case Finish(w, threw) => FinishPlace(s, w, threw);
    case _ =>
  }

  lemma YieldPlace(s: State, w: WorkerId)
    requires Running(s, w)
    ensures Push(EndHold(s, w), Wake(Cur(s, w)), None).place == s.place[Ticket(s.nextTicket, Wake(Cur(s, w))) := Queued]
  {
    assert EndHold(s, w).place == s.place && EndHold(s, w).nextTicket == s.nextTicket;
  }

  lemma FinishPlace(s: State, w: WorkerId, threw: bool)
    requires Running(s, w)
    ensures var job := s.fibers[Cur(s, w)].job;
            EndFinish(s, w, threw).place == if job.Some? then s.place[job.value := Used] else s.place
  {
  }

  lemma DisarmPlace(s: State, c: CallId)
    requires c in s.calls
    ensures Happens(s.place, CancelCallTimer(s, c).place, DisarmEffect(s, c))
  {
  }

  lemma FailPlace(s: State, w: WorkerId, c: CallId)
    requires HookEnabled(s, CallFail(w, c))
    ensures FailCall(s, Cur(s, w), c).place == CancelCallTimer(s, c).place
  {
  }

  lemma ArmPlace(s: State, f: FiberId, c: CallId)
    requires f in s.fibers && c in s.calls
    ensures ArmCall(s, f, c).place
            == if s.calls[c].limited then s.place[Ticket(s.nextTicket, Invoke(Timeout(c))) := Armed(s.nextTimer)] else s.place
  {
    if s.calls[c].limited {
      assert ArmCall(s, f, c).place == Arm(s, Invoke(Timeout(c)), false).place;
    } else {
      assert ArmCall(s, f, c).place == s.place;
    }
  }

  lemma RegisterPlace(s: State, f: FiberId, c: CallId)
    requires f in s.fibers && c in s.calls
    ensures RegisterCall(s, f, c).place == s.place[Ticket(s.nextTicket, Wake(f)) := Registered(s.calls[c].key)]
  {
    assert RegisterCall(s, f, c).place == Register(s, s.calls[c].key, Wake(f)).place;
  }

  lemma ResumePlace(s: State, g: FiberId, f: FiberId)
    requires g in s.fibers && f in s.fibers
    ensures FinishResume(s, g, f).place == s.place[Ticket(s.nextTicket, Wake(f)) := Queued]
  {
  }

  lemma CancelPlace(s: State, g: FiberId, c: CallId)
    requires g in s.fibers && c in s.calls
    ensures var k := s.calls[c].key;
            CancelCall(s, g, c).place == if k in s.regs then s.place[s.regs[k] := Queued] else s.place
  {
    var s1, k := SetProg(s, g, Free), s.calls[c].key;
    assert s1.regs == s.regs;
    if k in s.regs {
      assert CancelCall(s, g, c) == Fire(s1, k);
    } else {
      assert CancelCall(s, g, c) == s1;
    }
  }

  lemma HookPlace(s: State, h: HookStep)
    requires HookEnabled(s, h)
    ensures Happens(s.place, HookApply(s, h).place, HookEffect(s, h))
  {
    match h
    case CallArm(w, c) => ArmPlace(s, Cur(s, w), c);
    case CallRegister(w, c) => RegisterPlace(s, Cur(s, w), c);
    case CallFail(w, c) => FailPlace(s, w, c); DisarmPlace(s, c);
    case CallDisarm(w, c) => DisarmPlace(s, c);
    case ResumeSleeper(w, f) => ResumePlace(s, Cur(s, w), f);
    case TimeoutCancel(w, c) => CancelPlace(s, Cur(s, w), c);
    case _ => QuietHook(s, h);
  }

  lemma TakePlace(s: State, w: WorkerId)
    requires w in s.workers
    ensures var i := Scan(s.queue, w, s.fibers);
            TakeFirst(s, w).place == if i < |s.queue| then s.place[s.queue[i].ticket := InHand(w)] else s.place
  {
    var i := Scan(s.queue, w, s.fibers);
    if i < |s.queue| {
      assert TakeFirst(s, w) == Take(s, w, i);
    } else {
      assert TakeFirst(s, w) == Shift(s, w, s.workers[w].(pc := NoTask), s.idle);
    }
  }

  lemma TakeUpPlace(s: State, w: WorkerId)
    requires LoopEnabled(s, TakeUp(w))
    ensures Happens(s.place, TakeUpHand(s, w).place, LoopEffect(s, TakeUp(w)))
  {
    var tk := s.workers[w].pc.ticket;
    if tk.task.Invoke? {
      assert SwapInCallback(s, w).place == s.place[tk := Inside(Host(s, w))];
    } else if s.fibers[tk.task.fiber].state.TERM? || s.fibers[tk.task.fiber].state.EXCEPT? {
      assert Drop(s, w).place == s.place[tk := Dropped];
    } else {
      SwapPlace(s, w);
    }
  }

  lemma SwapPlace(s: State, w: WorkerId)
    requires LoopEnabled(s, TakeUp(w)) && s.workers[w].pc.ticket.task.Wake?
    ensures SwapIn(s, w).place == s.place[s.workers[w].pc.ticket := Used]
  {
  }

  lemma CollectPlace(s: State, w: WorkerId, t: TimerId)
    requires LoopEnabled(s, CollectTimer(w, t))
    ensures Happens(s.place, Collect(s, w, t).place, LoopEffect(s, CollectTimer(w, t)))
  {
    if s.timers[t].recurring {
      assert Collect(s, w, t).place == s.place[Ticket(s.nextTicket, s.timers[t].ticket.task) := Collected(w)];
    } else {
      assert Collect(s, w, t).place == s.place[s.timers[t].ticket := Collected(w)];
    }
  }

  lemma LoopPlace(s: State, l: LoopStep)
    requires LoopEnabled(s, l)
    ensures Happens(s.place, LoopApply(s, l).place, LoopEffect(s, l))
  {
    match l
    case Dequeue(w) => TakePlace(s, w);
    case TakeUp(w) => TakeUpPlace(s, w);
    case CollectTimer(w, t) => CollectPlace(s, w, t);
    case SubmitCallback(w, tk) => assert Submit(s, w, tk).place == s.place[tk := Queued];
    case Dispatch(w, k) => assert Fire(s, k).place == s.place[s.regs[k] := Queued];
    case _ => QuietLoop(s, l);
  }

  /** Every step issues or moves exactly the ticket its call is about, and no other. */
  lemma StepEffect(s: State, st: Step)
    requires Enabled(s, st)
    ensures Happens(s.place, Apply(s, st).place, EffectOf(s, st))
  {
    match st
    case Code(u) => UserPlace(s, u);
    case Hook(h) => HookPlace(s, h);
    case Loop(l) => LoopPlace(s, l);
  }

  // ---------------------------------------------------------------- what a worker takes

  /** The worker must pass this entry: it is pinned to another thread, or its fiber is executing. */
  ghost predicate Passed(e: Entry, w: WorkerId, fibers: map<FiberId, Fiber>) {
    || (exists v :: e.pin == Some(v) && v != w)
    || (exists f :: e.ticket.task == Wake(f) && f in fibers && fibers[f].state.EXEC?)
  }

  ghost predicate TakesEntry(s: State, s': State, w: WorkerId, i: nat) {
    && i < |s.queue| && !Passed(s.queue[i], w, s.fibers)
    && (forall j | 0 <= j < i :: Passed(s.queue[j], w, s.fibers))
    && s'.queue == s.queue[..i] + s.queue[i + 1..] && s'.active == s.active + 1
    && w in s'.workers && s'.workers[w].pc == Hand(s.queue[i].ticket)
  }

  /** The first entry that is neither pinned to another thread nor names an executing fiber leaves
      the queue for the hand of the worker; with none the worker goes on without a task. */
  lemma DequeueTakes(s: State, w: WorkerId)
    requires LoopEnabled(s, Dequeue(w))
    ensures var s' := Apply(s, Loop(Dequeue(w)));
            if forall j | 0 <= j < |s.queue| :: Passed(s.queue[j], w, s.fibers)
            then s'.queue == s.queue && s'.active == s.active && w in s'.workers && s'.workers[w].pc == NoTask
            else exists i :: TakesEntry(s, s', w, i)
  {
    var i, s' := Scan(s.queue, w, s.fibers), TakeFirst(s, w);
    assert Apply(s, Loop(Dequeue(w))) == s';
    forall j | 0 <= j < |s.queue| ensures Passed(s.queue[j], w, s.fibers) <==> !Eligible(s.queue[j], w, s.fibers) {
      PassedIff(s.queue[j], w, s.fibers);
    }
    if i < |s.queue| {
      TakeDoes(s, w, i);
      assert TakesEntry(s, s', w, i);
    } else {
      assert s' == Shift(s, w, s.workers[w].(pc := NoTask), s.idle);
    }
  }

  lemma TakeDoes(s: State, w: WorkerId, i: nat)
    requires w in s.workers && i == Scan(s.queue, w, s.fibers) < |s.queue|
    ensures var s' := TakeFirst(s, w);
            && s'.queue == s.queue[..i] + s.queue[i + 1..] && s'.active == s.active + 1
            && w in s'.workers && s'.workers[w].pc == Hand(s.queue[i].ticket)
  {
    assert TakeFirst(s, w) == Take(s, w, i);
  }

  lemma PassedIff(e: Entry, w: WorkerId, fibers: map<FiberId, Fiber>)
    ensures Passed(e, w, fibers) <==> !Eligible(e, w, fibers)
  {
    if e.pin.Some? && e.pin.value != w {
      assert e.pin == Some(e.pin.value);
    }
    if e.ticket.task.Wake? {
      assert e.ticket.task == Wake(e.ticket.task.fiber);
    }
  }

  // ---------------------------------------------------------------- timers

  /** addTimer arms a timer of the kind asked for; sleep and hooked calls arm one-shots. */
  lemma TimersArmed(s: State, st: Step)
    requires Enabled(s, st)
    ensures st.Code? && st.u.AddTimer? ==>
              Apply(s, st).timers == s.timers[s.nextTimer := Timer(Ticket(s.nextTicket, Invoke(User(st.u.n))), st.u.recurring)]
    ensures st.Code? && st.u.Sleep? ==>
              Apply(s, st).timers == s.timers[s.nextTimer := Timer(Ticket(s.nextTicket, Invoke(Resume(Cur(s, st.u.w)))), false)]
    ensures st.Hook? && st.h.CallArm? ==>
              Apply(s, st).timers == if s.calls[st.h.c].limited
                                     then s.timers[s.nextTimer := Timer(Ticket(s.nextTicket, Invoke(Timeout(st.h.c))), false)]
                                     else s.timers
  {
    if st.Code? && st.u.AddTimer? {
      assert Apply(s, st) == Arm(s, Invoke(User(st.u.n)), st.u.recurring);
    } else if st.Code? && st.u.Sleep? {
      assert Apply(s, st) == Arm(s, Invoke(Resume(Cur(s, st.u.w))), false);
    } else if st.Hook? && st.h.CallArm? {
      ArmTimers(s, Cur(s, st.h.w), st.h.c);
    }
  }

  lemma ArmTimers(s: State, f: FiberId, c: CallId)
    requires f in s.fibers && c in s.calls
    ensures ArmCall(s, f, c).timers
            == if s.calls[c].limited then s.timers[s.nextTimer := Timer(Ticket(s.nextTicket, Invoke(Timeout(c))), false)] else s.timers
  {
    if s.calls[c].limited {
      assert ArmCall(s, f, c).timers == Arm(s, Invoke(Timeout(c)), false).timers;
    } else {
      assert ArmCall(s, f, c).timers == s.timers;
    }
  }

  /** Collecting a recurring timer leaves it armed and hands over one callback with its task; a
      one-shot is gone and hands over its own. */
  lemma TimerCollected(s: State, w: WorkerId, t: TimerId)
    requires LoopEnabled(s, CollectTimer(w, t))
    ensures var s', tm := Apply(s, Loop(CollectTimer(w, t))), s.timers[t];
            && s'.timers == (if tm.recurring then s.timers else s.timers - {t})
            && w in s'.workers && s'.workers[w].pc.Polling?
            && exists tk: Ticket :: tk.task == tm.ticket.task && (!tm.recurring ==> tk == tm.ticket)
                 && s'.workers[w].pc.cbs == s.workers[w].pc.cbs + {tk}
  {
    assert Apply(s, Loop(CollectTimer(w, t))) == Collect(s, w, t);
    var tk := if s.timers[t].recurring then Ticket(s.nextTicket, s.timers[t].ticket.task) else s.timers[t].ticket;
    CollectDoes(s, w, t, tk);
  }

  lemma CollectDoes(s: State, w: WorkerId, t: TimerId, tk: Ticket)
    requires LoopEnabled(s, CollectTimer(w, t))
    requires tk == if s.timers[t].recurring then Ticket(s.nextTicket, s.timers[t].ticket.task) else s.timers[t].ticket
    ensures var s' := Collect(s, w, t);
            && s'.timers == (if s.timers[t].recurring then s.timers else s.timers - {t})
            && w in s'.workers && s'.workers[w].pc == Polling(s.workers[w].pc.cbs + {tk})
  {
    if s.timers[t].recurring {
      assert Collect(s, w, t).workers[w].pc == Polling(s.workers[w].pc.cbs + {tk});
    } else {
      assert Collect(s, w, t).workers[w].pc == Polling(s.workers[w].pc.cbs + {tk});
    }
  }

  // ---------------------------------------------------------------- fibers

  /** A fiber that ends is TERM, or EXCEPT if its function threw; one that ran a callback is INIT
      again, without callback, and is the worker's to recycle. */
  lemma FiberEnds(s: State, w: WorkerId, threw: bool)
    requires UserEnabled(s, Finish(w, threw))
    ensures var s', f := Apply(s, Code(Finish(w, threw))), Cur(s, w);
            && f in s'.fibers && w in s'.workers && s'.workers[w].pc == Head && s'.active == s.active - 1
            && s'.workers[w].spare == s.workers[w].spare && s'.queue == s.queue
            && (s.workers[w].pc.hosted ==> s'.fibers[f].state == INIT && s'.fibers[f].cb == None)
            && (!s.workers[w].pc.hosted && threw ==> s'.fibers[f].state == EXCEPT)
            && (!s.workers[w].pc.hosted && !threw ==> s'.fibers[f].state == TERM && s'.fibers[f].cb == None)
  {
    assert Apply(s, Code(Finish(w, threw))) == EndFinish(s, w, threw);
  }

  /** A fiber that yields is in HOLD; YieldToReady also puts it at the back of the queue, for any
      thread; a worker whose recycled fiber yields needs a new one. */
  lemma FiberYields(s: State, w: WorkerId, ready: bool)
    requires UserEnabled(s, if ready then YieldReady(w) else YieldHold(w))
    ensures var s', f := Apply(s, Code(if ready then YieldReady(w) else YieldHold(w))), Cur(s, w);
            && f in s'.fibers && s'.fibers[f].state == HOLD
            && w in s'.workers && s'.workers[w].pc == Head && s'.active == s.active - 1
            && s'.workers[w].spare == (if s.workers[w].pc.hosted then None else s.workers[w].spare)
            && s'.queue == s.queue + if ready then [Entry(Ticket(s.nextTicket, Wake(f)), None)] else []
  {
    var s1, f := EndHold(s, w), Cur(s, w);
    assert s1.fibers[f].state == HOLD && s1.queue == s.queue && s1.nextTicket == s.nextTicket;
    if ready {
      assert Apply(s, Code(YieldReady(w))) == Push(s1, Wake(f), None);
    } else {
      assert Apply(s, Code(YieldHold(w))) == s1;
    }
  }

  /** A worker swaps in the fiber it has taken, unless it has finished: then it is only dropped. */
  lemma FiberTaken(s: State, w: WorkerId, f: FiberId)
    requires LoopEnabled(s, TakeUp(w)) && s.workers[w].pc.ticket.task == Wake(f)
    ensures var s' := Apply(s, Loop(TakeUp(w)));
            && f in s'.fibers && w in s'.workers
            && if s.fibers[f].state == TERM || s.fibers[f].state == EXCEPT
               then s'.fibers[f].state == s.fibers[f].state && s'.workers[w].pc == Head && s'.active == s.active - 1
               else s'.fibers[f].state == EXEC(w) && s'.workers[w].pc == Run(f, false) && s'.active == s.active
  {
    TakeUpIs(s, w, f);
    if s.fibers[f].state == TERM || s.fibers[f].state == EXCEPT {
      DropDoes(s, w, f);
    } else {
      SwapDoes(s, w, f);
    }
  }

  lemma TakeUpIs(s: State, w: WorkerId, f: FiberId)
    requires LoopEnabled(s, TakeUp(w)) && s.workers[w].pc.ticket.task == Wake(f)
    ensures Apply(s, Loop(TakeUp(w)))
            == if s.fibers[f].state == TERM || s.fibers[f].state == EXCEPT then Drop(s, w) else SwapIn(s, w)
  {
  }

  lemma DropDoes(s: State, w: WorkerId, f: FiberId)
    requires LoopEnabled(s, TakeUp(w)) && s.workers[w].pc.ticket.task == Wake(f)
    ensures var s' := Drop(s, w);
            && f in s'.fibers && s'.fibers[f].state == s.fibers[f].state
            && w in s'.workers && s'.workers[w].pc == Head && s'.active == s.active - 1
  {
  }

  lemma SwapDoes(s: State, w: WorkerId, f: FiberId)
    requires LoopEnabled(s, TakeUp(w)) && s.workers[w].pc.ticket.task == Wake(f)
    ensures var s' := SwapIn(s, w);
            && f in s'.fibers && s'.fibers[f].state == EXEC(w)
            && w in s'.workers && s'.workers[w].pc == Run(f, false) && s'.active == s.active
  {
  }

  /** A callback runs in the recycled fiber of the worker, or in a new one. */
  lemma CallbackTaken(s: State, w: WorkerId, cb: Callback)
    requires LoopEnabled(s, TakeUp(w)) && s.workers[w].pc.ticket.task == Invoke(cb)
    ensures var s', g := Apply(s, Loop(TakeUp(w))), if s.workers[w].spare.Some? then s.workers[w].spare.value else s.nextFiber;
            && g in s'.fibers && s'.fibers[g].state == EXEC(w) && s'.fibers[g].cb == Some(cb)
            && w in s'.workers && s'.workers[w].pc == Run(g, true) && s'.workers[w].spare == Some(g) && s'.active == s.active
            && match cb {
                 case User(n) => s'.fibers[g].prog == Free
                 case Resume(f) => s'.fibers[g].prog == Resuming(f)
                 case Timeout(c) => s'.fibers[g].prog == Expiring(c)
               }
  {
    assert Apply(s, Loop(TakeUp(w))) == SwapInCallback(s, w);
  }

  // ---------------------------------------------------------------- stopping

  /** An idle fiber ends exactly if stop was requested and there is no timer, no registration, no
      queued entry and no task being worked on. */
  lemma StopsIff(s: State, w: WorkerId)
    requires LoopEnabled(s, CheckStopping(w)) && !s.workers[w].idleDone
    ensures var s' := Apply(s, Loop(CheckStopping(w)));
            && w in s'.workers
            && (s'.workers[w].idleDone <==>
                  s.stopping && s.queue == [] && s.active == 0 && s.timers.Keys == {} && s.regs.Keys == {})
            && s'.workers[w].pc == (if s'.workers[w].idleDone then Head else Polling({}))
  {
    if MayStop(s) {
      assert Check(s, w).workers[w].idleDone;
    } else {
      assert !Check(s, w).workers[w].idleDone;
      assert s.timers != map[] ==> s.timers.Keys != {};
      assert s.regs != map[] ==> s.regs.Keys != {};
    }
  }

  /** A worker that finds nothing leaves exactly if its idle fiber has ended, else it goes idle. */
  lemma LeavesIff(s: State, w: WorkerId)
    requires w in s.workers && s.workers[w].pc == NoTask
    ensures LoopEnabled(s, Leave(w)) <==> s.workers[w].idleDone
    ensures LoopEnabled(s, EnterIdle(w)) <==> !s.workers[w].idleDone
    ensures s.workers[w].idleDone ==> var s' := Apply(s, Loop(Leave(w))); w in s'.workers && s'.workers[w].pc == Left
    ensures !s.workers[w].idleDone ==>
              var s' := Apply(s, Loop(EnterIdle(w))); w in s'.workers && s'.workers[w].pc == Idling && s'.idle == s.idle + 1
  {
  }
}
