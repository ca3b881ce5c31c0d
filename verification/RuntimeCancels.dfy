/**
  The time-out lambdas on their way to cancelEvent: which steps add and remove one, and what
  a hooked call can still cause after it has returned.
*/
module RuntimeCancels {
  import opened Prelude
  import opened Runtime
  import opened RuntimeInvariant
  import opened RuntimeSteps
  import opened RuntimeTheorems

  /** Fiber g is a time-out lambda of call c past its check, about to call cancelEvent. */
  predicate IsCanceller(fibers: map<FiberId, Fiber>, g: FiberId, c: CallId) {
    g in fibers && fibers[g].prog == Cancelling(c)
  }

  function Cancellers(fibers: map<FiberId, Fiber>, c: CallId): set<FiberId> {
    set g | g in fibers && IsCanceller(fibers, g, c)
  }

  /** A cancelEvent of this call is under way. */
  predicate CancelUnderWay(s: State, c: CallId) {
    Cancellers(s.fibers, c) != {}
  }

  ghost predicate SameCancels(fibers: map<FiberId, Fiber>, fibers': map<FiberId, Fiber>, c: CallId) {
    forall g :: IsCanceller(fibers', g, c) <==> IsCanceller(fibers, g, c)
  }

  lemma SameSet(fibers: map<FiberId, Fiber>, fibers': map<FiberId, Fiber>, c: CallId)
    requires SameCancels(fibers, fibers', c)
    ensures Cancellers(fibers', c) == Cancellers(fibers, c)
  {
    forall g ensures g in Cancellers(fibers', c) <==> g in Cancellers(fibers, c) {
      assert IsCanceller(fibers', g, c) <==> IsCanceller(fibers, g, c);
    }
  }

  lemma OneSame(fibers: map<FiberId, Fiber>, f: FiberId, fb: Fiber, c: CallId)
    requires if f in fibers && fibers[f].prog == Cancelling(c) then fb.prog == Cancelling(c) else fb.prog != Cancelling(c)
    ensures SameCancels(fibers, fibers[f := fb], c)
  {
  }

  lemma WakeSame(fibers: map<FiberId, Fiber>, t: Task, tk: Option<Ticket>, c: CallId)
    ensures SameCancels(fibers, SetWake(fibers, t, tk), c)
  {
  }

  lemma ThenSame(f0: map<FiberId, Fiber>, f1: map<FiberId, Fiber>, f2: map<FiberId, Fiber>, c: CallId)
    requires SameCancels(f0, f1, c) && SameCancels(f1, f2, c)
    ensures SameCancels(f0, f2, c)
  {
    forall g ensures IsCanceller(f2, g, c) <==> IsCanceller(f0, g, c) {
      assert IsCanceller(f1, g, c) <==> IsCanceller(f0, g, c);
    }
  }

  /** Neither the next fiber nor a recycled one is about to cancel anything. */
  ghost predicate Tame(s: State) {
    && s.nextFiber !in s.fibers
    && (forall w | w in s.workers && s.workers[w].pc.Hand? && s.workers[w].spare.Some? ::
          s.workers[w].spare.value in s.fibers && s.fibers[s.workers[w].spare.value].prog == Free)
  }

  lemma ReachableTame(s: State)
    requires Reachable(s)
    ensures Tame(s)
  {
    forall w | w in s.workers && s.workers[w].pc.Hand? && s.workers[w].spare.Some?
      ensures s.workers[w].spare.value in s.fibers && s.fibers[s.workers[w].spare.value].prog == Free
    {
      SpareAtHead(s, w);
      SpareFree(s, s.workers[w].spare.value);
    }
    NextFiberNew(s);
  }

  lemma SpareFree(s: State, f: FiberId)
    requires Reachable(s) && f in s.fibers && s.fibers[f].state == INIT
    ensures s.fibers[f].prog == Free
  {
    ReachableInv(s);
    assert FiberOk(s.fibers[f]);
  }

  lemma NextFiberNew(s: State)
    requires Reachable(s)
    ensures s.nextFiber !in s.fibers
  {
    ReachableInv(s);
  }

  // ---------------------------------------------------------------- user code

  lemma SpawnCancels(s: State, n: nat, pin: Option<WorkerId>, c: CallId)
    requires s.nextFiber !in s.fibers
    ensures SameCancels(s.fibers, Spawn(s, n, pin).fibers, c)
  {
    var f1 := s.fibers[s.nextFiber := Fiber(INIT, Some(User(n)), Free, None, None, None)];
    OneSame(s.fibers, s.nextFiber, f1[s.nextFiber], c);
    WakeSame(f1, Wake(s.nextFiber), Some(Ticket(s.nextTicket, Wake(s.nextFiber))), c);
    ThenSame(s.fibers, f1, Spawn(s, n, pin).fibers, c);
  }

  lemma HoldCancels(s: State, w: WorkerId, c: CallId)
    requires Running(s, w)
    ensures SameCancels(s.fibers, EndHold(s, w).fibers, c)
  {
    OneSame(s.fibers, Cur(s, w), EndHold(s, w).fibers[Cur(s, w)], c);
  }

  lemma FinishCancels(s: State, w: WorkerId, threw: bool, c: CallId)
    requires Running(s, w)
    ensures SameCancels(s.fibers, EndFinish(s, w, threw).fibers, c)
  {
    OneSame(s.fibers, Cur(s, w), EndFinish(s, w, threw).fibers[Cur(s, w)], c);
  }

  lemma ReadyCancels(s: State, w: WorkerId, c: CallId)
    requires Running(s, w)
    ensures SameCancels(s.fibers, Push(EndHold(s, w), Wake(Cur(s, w)), None).fibers, c)
  {
    var s1 := EndHold(s, w);
    HoldCancels(s, w, c);
    WakeSame(s1.fibers, Wake(Cur(s, w)), Some(Ticket(s1.nextTicket, Wake(Cur(s, w)))), c);
    ThenSame(s.fibers, s1.fibers, Push(s1, Wake(Cur(s, w)), None).fibers, c);
  }

  lemma UserCancels(s: State, u: UserStep, c: CallId)
    requires UserEnabled(s, u) && Tame(s)
    ensures SameCancels(s.fibers, UserApply(s, u).fibers, c)
  {
    var n := s.nextTicket;
    match u
    case ScheduleFiber(a, f, pin) => WakeSame(s.fibers, Wake(f), Some(Ticket(n, Wake(f))), c);
    case ScheduleNew(a, i, pin) => SpawnCancels(s, i, pin, c);
    case AddEventFiber(w, k) => WakeSame(s.fibers, Wake(Cur(s, w)), Some(Ticket(n, Wake(Cur(s, w)))), c);
    case DelEvent(a, k) => WakeSame(s.fibers, s.regs[k].task, None, c);
    case Sleep(w) => WakeSame(s.fibers, Invoke(Resume(Cur(s, w))), Some(Ticket(n, Invoke(Resume(Cur(s, w))))), c);
    case YieldHold(w) => HoldCancels(s, w, c);
    case YieldReady(w) => ReadyCancels(s, w, c);
    case Finish(w, threw) => FinishCancels(s, w, threw, c);
    case _ =>
  }

  // ---------------------------------------------------------------- hooked calls

  lemma ProgCancels(s: State, f: FiberId, p: Prog, c: CallId)
    requires f in s.fibers && s.fibers[f].prog != Cancelling(c) && p != Cancelling(c)
    ensures SameCancels(s.fibers, SetProg(s, f, p).fibers, c)
  {
    OneSame(s.fibers, f, s.fibers[f].(prog := p), c);
  }

  lemma RegisterCancels(s: State, f: FiberId, d: CallId, c: CallId)
    requires f in s.fibers && d in s.calls && s.fibers[f].prog != Cancelling(c)
    ensures SameCancels(s.fibers, RegisterCall(s, f, d).fibers, c)
  {
    var s1 := Register(s, s.calls[d].key, Wake(f));
    WakeSame(s.fibers, Wake(f), Some(Ticket(s.nextTicket, Wake(f))), c);
    OneSame(s1.fibers, f, s1.fibers[f].(prog := InCall(d, Suspending)), c);
    ThenSame(s.fibers, s1.fibers, RegisterCall(s, f, d).fibers, c);
  }

  lemma ArmFibers(s: State, f: FiberId, d: CallId)
    requires f in s.fibers && d in s.calls
    ensures ArmCall(s, f, d).fibers == s.fibers[f := s.fibers[f].(prog := InCall(d, Registering))]
  {
    assert Arm(s, Invoke(Timeout(d)), false).fibers == s.fibers;
  }

  lemma ResumeFibers(s: State, g: FiberId, f: FiberId)
    requires g in s.fibers && f in s.fibers
    ensures var f1 := s.fibers[f := s.fibers[f].(wake := None)];
            FinishResume(s, g, f).fibers == SetWake(f1[g := f1[g].(prog := Free)], Wake(f), Some(Ticket(s.nextTicket, Wake(f))))
  {
  }

  lemma ArmCancels(s: State, f: FiberId, d: CallId, c: CallId)
    requires f in s.fibers && d in s.calls && s.fibers[f].prog != Cancelling(c)
    ensures SameCancels(s.fibers, ArmCall(s, f, d).fibers, c)
  {
    ArmFibers(s, f, d);
    OneSame(s.fibers, f, s.fibers[f].(prog := InCall(d, Registering)), c);
  }

  lemma TwoSame(fibers: map<FiberId, Fiber>, f: FiberId, fb: Fiber, g: FiberId, gb: Fiber, c: CallId)
    requires f in fibers && fb.prog == fibers[f].prog
    requires g in fibers && fibers[g].prog != Cancelling(c) && gb.prog != Cancelling(c)
    ensures SameCancels(fibers, fibers[f := fb][g := gb], c)
  {
  }

  lemma ResumeCancels(s: State, g: FiberId, f: FiberId, c: CallId)
    requires g in s.fibers && f in s.fibers && s.fibers[g].prog != Cancelling(c)
    ensures SameCancels(s.fibers, FinishResume(s, g, f).fibers, c)
  {
    var f1 := s.fibers[f := s.fibers[f].(wake := None)];
    var f2 := f1[g := f1[g].(prog := Free)];
    TwoSame(s.fibers, f, f1[f], g, f2[g], c);
    WakeSame(f2, Wake(f), Some(Ticket(s.nextTicket, Wake(f))), c);
    ResumeFibers(s, g, f);
    ThenSame(s.fibers, f2, FinishResume(s, g, f).fibers, c);
  }

  lemma EndsCancels(s: State, f: FiberId, d: CallId, timedOut: bool, c: CallId)
    requires f in s.fibers && d in s.calls && s.fibers[f].prog != Cancelling(c)
    ensures SameCancels(s.fibers, EndCall(s, f, d, timedOut).fibers, c)
  {
    OneSame(s.fibers, f, s.fibers[f].(prog := Free), c);
  }

  lemma CheckCancels(s: State, f: FiberId, d: CallId, c: CallId)
    requires f in s.fibers && d in s.calls && s.fibers[f].prog != Cancelling(c)
    ensures SameCancels(s.fibers, CheckCall(s, f, d).fibers, c)
  {
    EndsCancels(s, f, d, true, c);
    EndsCancels(s, f, d, false, c);
    ProgCancels(s, f, InCall(d, Trying), c);
  }

  lemma BeginCancels(s: State, f: FiberId, k: Key, limited: bool, retries: bool, c: CallId)
    requires f in s.fibers && s.fibers[f].prog != Cancelling(c)
    ensures SameCancels(s.fibers, BeginCall(s, f, k, limited, retries).fibers, c)
  {
    OneSame(s.fibers, f, s.fibers[f].(prog := InCall(s.nextCall, Trying)), c);
  }

  lemma CallCancels(s: State, h: HookStep, c: CallId)
    requires HookEnabled(s, h) && !h.TimeoutCheck? && !h.TimeoutCancel?
    ensures SameCancels(s.fibers, HookApply(s, h).fibers, c)
  {
    var f := Cur(s, h.w);
    match h
    case CallBegin(w, k, limited, retries) => BeginCancels(s, f, k, limited, retries, c);
    case CallReturns(w, d) => EndsCancels(s, f, d, false, c);
    case CallBlocks(w, d) => ProgCancels(s, f, InCall(d, Arming), c);
    case CallArm(w, d) => ArmCancels(s, f, d, c);
    case CallRegister(w, d) => RegisterCancels(s, f, d, c);
    case CallRegisterFails(w, d) => ProgCancels(s, f, InCall(d, Failing), c);
    case CallFail(w, d) => EndsCancels(CancelCallTimer(s, d), f, d, false, c);
    case CallSuspend(w, d) => HoldCancels(s, w, c);
    case CallDisarm(w, d) => ProgCancels(CancelCallTimer(s, d), f, InCall(d, Checking), c);
    case CallCheck(w, d) => CheckCancels(s, f, d, c);
    case ResumeSleeper(w, g) => ResumeCancels(s, f, g, c);
  }

  /** The step marks the call: its lambda passes the check. */
  predicate Marks(s: State, st: Step, c: CallId) {
    st.Hook? && st.h.TimeoutCheck? && st.h.c == c && c in s.calls && s.calls[c].alive && !s.calls[c].flag
  }

  predicate Cancels(st: Step, c: CallId) {
    st.Hook? && st.h.TimeoutCancel? && st.h.c == c
  }

  lemma ExpireFibers(s: State, g: FiberId, d: CallId)
    requires g in s.fibers
    ensures var p := if d in s.calls && s.calls[d].alive && !s.calls[d].flag then Cancelling(d) else Free;
            ExpireCall(s, g, d).fibers == s.fibers[g := s.fibers[g].(prog := p)]
  {
    if d in s.calls && s.calls[d].alive && !s.calls[d].flag {
      var s1 := s.(calls := s.calls[d := s.calls[d].(flag := true)]);
      assert ExpireCall(s, g, d) == SetProg(s1, g, Cancelling(d));
      ProgOnly(s1, g, Cancelling(d));
    } else {
      ProgOnly(s, g, Free);
    }
  }

  lemma ProgOnly(s: State, f: FiberId, p: Prog)
    requires f in s.fibers
    ensures SetProg(s, f, p).fibers == s.fibers[f := s.fibers[f].(prog := p)]
  {
  }

  lemma AddCanceller(fibers: map<FiberId, Fiber>, g: FiberId, fb: Fiber, c: CallId)
    requires fb.prog == Cancelling(c)
    ensures Cancellers(fibers[g := fb], c) == Cancellers(fibers, c) + {g}
  {
    forall x ensures x in Cancellers(fibers[g := fb], c) <==> x in Cancellers(fibers, c) + {g} {
      assert IsCanceller(fibers[g := fb], x, c) <==> x == g || IsCanceller(fibers, x, c);
    }
  }

  lemma DropCanceller(fibers: map<FiberId, Fiber>, g: FiberId, fb: Fiber, c: CallId)
    requires fb.prog != Cancelling(c)
    ensures Cancellers(fibers[g := fb], c) == Cancellers(fibers, c) - {g}
  {
    forall x ensures x in Cancellers(fibers[g := fb], c) <==> x in Cancellers(fibers, c) - {g} {
      assert IsCanceller(fibers[g := fb], x, c) <==> x != g && IsCanceller(fibers, x, c);
    }
  }

  lemma CheckLambda(s: State, w: WorkerId, d: CallId, c: CallId)
    requires HookEnabled(s, TimeoutCheck(w, d))
    ensures var g, fibers := Cur(s, w), HookApply(s, TimeoutCheck(w, d)).fibers;
            Cancellers(fibers, c) == Cancellers(s.fibers, c) + if Marks(s, Hook(TimeoutCheck(w, d)), c) then {g} else {}
  {
    var g := Cur(s, w);
    ExpireFibers(s, g, d);
    assert HookApply(s, TimeoutCheck(w, d)) == ExpireCall(s, g, d);
    var fb := ExpireCall(s, g, d).fibers[g];
    if fb.prog == Cancelling(c) {
      AddCanceller(s.fibers, g, fb, c);
    } else {
      DropCanceller(s.fibers, g, fb, c);
      assert !IsCanceller(s.fibers, g, c);
    }
  }

  lemma CancelLambda(s: State, w: WorkerId, d: CallId, c: CallId)
    requires HookEnabled(s, TimeoutCancel(w, d))
    ensures var g, fibers := Cur(s, w), HookApply(s, TimeoutCancel(w, d)).fibers;
            Cancellers(fibers, c) == Cancellers(s.fibers, c) - if d == c then {g} else {}
  {
    var g, s' := Cur(s, w), HookApply(s, TimeoutCancel(w, d));
    assert s'.fibers == s.fibers[g := s.fibers[g].(prog := Free)];
    DropCanceller(s.fibers, g, s'.fibers[g], c);
    assert d != c ==> !IsCanceller(s.fibers, g, c);
  }

  // ---------------------------------------------------------------- the worker loop

  lemma SwapCancels(s: State, w: WorkerId, c: CallId)
    requires LoopEnabled(s, TakeUp(w)) && s.workers[w].pc.ticket.task.Wake?
    ensures SameCancels(s.fibers, SwapIn(s, w).fibers, c)
  {
    var f := s.workers[w].pc.ticket.task.fiber;
    OneSame(s.fibers, f, SwapIn(s, w).fibers[f], c);
  }

  lemma HostCancels(s: State, w: WorkerId, c: CallId)
    requires LoopEnabled(s, TakeUp(w)) && Tame(s) && s.workers[w].pc.ticket.task.Invoke?
    ensures SameCancels(s.fibers, SwapInCallback(s, w).fibers, c)
  {
    var g := Host(s, w);
    OneSame(s.fibers, g, SwapInCallback(s, w).fibers[g], c);
  }

  lemma DropCancels(s: State, w: WorkerId, c: CallId)
    requires LoopEnabled(s, TakeUp(w))
    ensures SameCancels(s.fibers, Drop(s, w).fibers, c)
  {
    WakeSame(s.fibers, s.workers[w].pc.ticket.task, None, c);
  }

  lemma TakeUpCancels(s: State, w: WorkerId, c: CallId)
    requires LoopEnabled(s, TakeUp(w)) && Tame(s)
    ensures SameCancels(s.fibers, TakeUpHand(s, w).fibers, c)
  {
    var t := s.workers[w].pc.ticket.task;
    if t.Invoke? {
      HostCancels(s, w, c);
    } else {
      DropCancels(s, w, c);
      SwapCancels(s, w, c);
    }
  }

  lemma LoopCancels(s: State, l: LoopStep, c: CallId)
    requires LoopEnabled(s, l) && Tame(s)
    ensures SameCancels(s.fibers, LoopApply(s, l).fibers, c)
  {
    if l.TakeUp? {
      TakeUpCancels(s, l.w, c);
    } else {
      LoopFibers(s, l);
    }
  }

  lemma LoopFibers(s: State, l: LoopStep)
    requires LoopEnabled(s, l) && !l.TakeUp?
    ensures LoopApply(s, l).fibers == s.fibers
  {
    match l
    case Dequeue(w) => TakeFibers(s, w);
    case CollectTimer(w, t) => CollectFibers(s, w, t);
    case CheckStopping(w) => CheckFibers(s, w);
    case SubmitCallback(w, tk) => SubmitFibers(s, w, tk);
    case Dispatch(w, k) => FireFibers(s, k);
    case _ =>
  }

  lemma TakeFibers(s: State, w: WorkerId)
    requires w in s.workers
    ensures TakeFirst(s, w).fibers == s.fibers
  {
    var i := Scan(s.queue, w, s.fibers);
    if i < |s.queue| {
      assert Take(s, w, i).fibers == s.fibers;
    } else {
      assert Shift(s, w, s.workers[w].(pc := NoTask), s.idle).fibers == s.fibers;
    }
  }

  lemma CollectFibers(s: State, w: WorkerId, t: TimerId)
    requires LoopEnabled(s, CollectTimer(w, t))
    ensures Collect(s, w, t).fibers == s.fibers
  {
    if s.timers[t].recurring {
      assert Collect(s, w, t).fibers == s.fibers;
    } else {
      assert Collect(s, w, t).fibers == s.fibers;
    }
  }

  lemma CheckFibers(s: State, w: WorkerId)
    requires w in s.workers
    ensures Check(s, w).fibers == s.fibers
  {
    if MayStop(s) {
      assert Shift(s, w, s.workers[w].(pc := Head, idleDone := true), s.idle - 1).fibers == s.fibers;
    } else {
      assert Shift(s, w, s.workers[w].(pc := Polling({})), s.idle).fibers == s.fibers;
    }
  }

  lemma SubmitFibers(s: State, w: WorkerId, tk: Ticket)
    requires LoopEnabled(s, SubmitCallback(w, tk))
    ensures Submit(s, w, tk).fibers == s.fibers
  {
  }

  lemma FireFibers(s: State, k: Key)
    requires k in s.regs
    ensures Fire(s, k).fibers == s.fibers
  {
  }

  lemma HookCancels(s: State, h: HookStep, c: CallId)
    requires HookEnabled(s, h)
    ensures Cancellers(HookApply(s, h).fibers, c)
            == if Marks(s, Hook(h), c) then Cancellers(s.fibers, c) + {Cur(s, h.w)}
               else if Cancels(Hook(h), c) then Cancellers(s.fibers, c) - {Cur(s, h.w)}
               else Cancellers(s.fibers, c)
  {
    if h.TimeoutCheck? {
      CheckLambda(s, h.w, h.c, c);
    } else if h.TimeoutCancel? {
      CancelLambda(s, h.w, h.c, c);
    } else {
      CallCancels(s, h, c);
      SameSet(s.fibers, HookApply(s, h).fibers, c);
    }
  }

  /** A lambda comes to the point of cancelling only through the check that marks its call,
      and leaves it only by cancelling. */
  lemma StepCancels(s: State, st: Step, c: CallId)
    requires Reachable(s) && Enabled(s, st)
    ensures Cancellers(Apply(s, st).fibers, c)
            == if Marks(s, st, c) then Cancellers(s.fibers, c) + {Cur(s, st.h.w)}
               else if Cancels(st, c) then Cancellers(s.fibers, c) - {Cur(s, st.h.w)}
               else Cancellers(s.fibers, c)
  {
    ReachableTame(s);
    match st
    case Code(u) => UserCancels(s, u, c); SameSet(s.fibers, Apply(s, st).fibers, c);
    case Loop(l) => LoopCancels(s, l, c); SameSet(s.fibers, Apply(s, st).fibers, c);
    case Hook(h) => HookCancels(s, h, c);
  }

  // ---------------------------------------------------------------- what a step does to a call

  /** The call is the same one, it is over if it was or if `ended` says so, and marked if it was
      or if `marked` says so. */
  predicate GoesOn(calls: map<CallId, CallInfo>, calls': map<CallId, CallInfo>, c: CallId, marked: bool, ended: bool) {
    && c in calls && c in calls'
    && calls'[c].key == calls[c].key && calls'[c].fiber == calls[c].fiber
    && calls'[c].limited == calls[c].limited && calls'[c].retries == calls[c].retries
    && (calls'[c].alive <==> calls[c].alive && !ended)
    && (calls'[c].flag <==> calls[c].flag || marked)
  }

  /** The step with which a call gives control back to its caller. */
  predicate Returns(s: State, h: HookStep) {
    match h
    case CallReturns(w, c) => true
    case CallFail(w, c) => true
    case CallCheck(w, c) => c in s.calls && (s.calls[c].flag || !s.calls[c].retries)
    case _ => false
  }

  predicate Ends(s: State, st: Step, c: CallId) {
    st.Hook? && Returns(s, st.h) && st.h.c == c
  }

  lemma EndGoesOn(s: State, f: FiberId, d: CallId, timedOut: bool, c: CallId)
    requires f in s.fibers && d in s.calls && c in s.calls
    ensures GoesOn(s.calls, EndCall(s, f, d, timedOut).calls, c, false, d == c)
  {
  }

  lemma ArmGoesOn(s: State, f: FiberId, d: CallId, c: CallId)
    requires f in s.fibers && d in s.calls && c in s.calls
    ensures GoesOn(s.calls, ArmCall(s, f, d).calls, c, false, false)
  {
    if s.calls[d].limited {
      assert GoesOn(s.calls, ArmCall(s, f, d).calls, c, false, false);
    }
  }

  lemma RegisterGoesOn(s: State, f: FiberId, d: CallId, c: CallId)
    requires f in s.fibers && d in s.calls && c in s.calls
    ensures GoesOn(s.calls, RegisterCall(s, f, d).calls, c, false, false)
  {
  }

  lemma BeginGoesOn(s: State, f: FiberId, k: Key, limited: bool, retries: bool, c: CallId)
    requires f in s.fibers && c in s.calls && c != s.nextCall
    ensures GoesOn(s.calls, BeginCall(s, f, k, limited, retries).calls, c, false, false)
  {
  }

  lemma CheckGoesOn(s: State, f: FiberId, d: CallId, c: CallId)
    requires f in s.fibers && d in s.calls && c in s.calls
    ensures GoesOn(s.calls, CheckCall(s, f, d).calls, c, false, d == c && (s.calls[c].flag || !s.calls[c].retries))
  {
    if s.calls[d].flag {
      EndGoesOn(s, f, d, true, c);
    } else if s.calls[d].retries {
      assert CheckCall(s, f, d).calls == s.calls;
    } else {
      EndGoesOn(s, f, d, false, c);
    }
  }

  lemma ExpireGoesOn(s: State, g: FiberId, d: CallId, c: CallId)
    requires g in s.fibers && c in s.calls
    ensures GoesOn(s.calls, ExpireCall(s, g, d).calls, c, d == c && s.calls[c].alive && !s.calls[c].flag, false)
  {
    if d in s.calls && s.calls[d].alive && !s.calls[d].flag {
      var s1 := s.(calls := s.calls[d := s.calls[d].(flag := true)]);
      assert ExpireCall(s, g, d) == SetProg(s1, g, Cancelling(d));
      ProgCalls(s1, g, Cancelling(d));
    } else {
      ProgCalls(s, g, Free);
    }
  }

  lemma ProgCalls(s: State, f: FiberId, p: Prog)
    requires f in s.fibers
    ensures SetProg(s, f, p).calls == s.calls && SetProg(s, f, p).regs == s.regs
  {
  }

  lemma FireDoes(s: State, k: Key)
    requires k in s.regs
    ensures Fire(s, k).calls == s.calls && Fire(s, k).queue == s.queue + [Entry(s.regs[k], None)]
  {
  }

  lemma CancelCalls(s: State, g: FiberId, d: CallId)
    requires g in s.fibers && d in s.calls
    ensures CancelCall(s, g, d).calls == s.calls
  {
    var s1 := SetProg(s, g, Free);
    ProgCalls(s, g, Free);
    if s.calls[d].key in s.regs {
      assert CancelCall(s, g, d) == Fire(s1, s.calls[d].key);
      FireDoes(s1, s.calls[d].key);
    } else {
      assert CancelCall(s, g, d) == s1;
    }
  }

  lemma HookGoesOn(s: State, h: HookStep, c: CallId)
    requires HookEnabled(s, h) && c in s.calls && c != s.nextCall
    ensures GoesOn(s.calls, HookApply(s, h).calls, c, Marks(s, Hook(h), c), Ends(s, Hook(h), c))
  {
    var f := Cur(s, h.w);
    match h
    case CallBegin(w, k, limited, retries) => BeginGoesOn(s, f, k, limited, retries, c);
    case CallReturns(w, d) => EndGoesOn(s, f, d, false, c);
    case CallArm(w, d) => ArmGoesOn(s, f, d, c);
    case CallRegister(w, d) => RegisterGoesOn(s, f, d, c);
    case CallFail(w, d) => EndGoesOn(CancelCallTimer(s, d), f, d, false, c);
    case CallCheck(w, d) => CheckGoesOn(s, f, d, c);
    case TimeoutCheck(w, d) => ExpireGoesOn(s, f, d, c);
    case TimeoutCancel(w, d) => CancelCalls(s, f, d);
    case _ => OtherCalls(s, h);
  }

  lemma OtherCalls(s: State, h: HookStep)
    requires HookEnabled(s, h)
    requires h.CallBlocks? || h.CallRegisterFails? || h.CallSuspend? || h.CallDisarm? || h.ResumeSleeper?
    ensures HookApply(s, h).calls == s.calls
  {
    match h
    case ResumeSleeper(w, f) => assert FinishResume(s, Cur(s, w), f).calls == s.calls;
    case CallDisarm(w, d) => assert CancelCallTimer(s, d).calls == s.calls;
    case _ =>
  }

  lemma UserCalls(s: State, u: UserStep)
    requires UserEnabled(s, u)
    ensures UserApply(s, u).calls == s.calls
  {
    match u
    case YieldReady(w) => assert EndHold(s, w).calls == s.calls;
    case _ =>
  }

  lemma SwapGoesOn(s: State, w: WorkerId, c: CallId)
    requires LoopEnabled(s, TakeUp(w)) && s.workers[w].pc.ticket.task.Wake? && c in s.calls
    ensures GoesOn(s.calls, SwapIn(s, w).calls, c, false, false)
  {
    SwapCalls(s, w);
  }

  lemma SwapCalls(s: State, w: WorkerId)
    requires LoopEnabled(s, TakeUp(w)) && s.workers[w].pc.ticket.task.Wake?
    ensures var p := s.fibers[s.workers[w].pc.ticket.task.fiber].prog;
            SwapIn(s, w).calls
            == if p.InCall? && p.call in s.calls then s.calls[p.call := Resumed(s.calls[p.call])] else s.calls
  {
  }

  lemma HostCalls(s: State, w: WorkerId)
    requires LoopEnabled(s, TakeUp(w)) && s.workers[w].pc.ticket.task.Invoke?
    ensures SwapInCallback(s, w).calls == s.calls
  {
  }

  lemma DropCalls(s: State, w: WorkerId)
    requires LoopEnabled(s, TakeUp(w))
    ensures Drop(s, w).calls == s.calls
  {
  }

  lemma TakeUpGoesOn(s: State, w: WorkerId, c: CallId)
    requires LoopEnabled(s, TakeUp(w)) && c in s.calls
    ensures GoesOn(s.calls, TakeUpHand(s, w).calls, c, false, false)
  {
    var t := s.workers[w].pc.ticket.task;
    if t.Invoke? {
      HostCalls(s, w);
    } else if s.fibers[t.fiber].state.TERM? || s.fibers[t.fiber].state.EXCEPT? {
      DropCalls(s, w);
    } else {
      SwapGoesOn(s, w, c);
    }
  }

  lemma CollectGoesOn(s: State, w: WorkerId, t: TimerId, c: CallId)
    requires LoopEnabled(s, CollectTimer(w, t)) && c in s.calls
    ensures GoesOn(s.calls, Collect(s, w, t).calls, c, false, false)
  {
    if s.timers[t].recurring {
      assert Collect(s, w, t).calls == s.calls;
    } else {
      assert Collect(s, w, t).calls == CountExpiry(s.calls, s.timers[t].ticket.task);
    }
  }

  lemma LoopCalls(s: State, l: LoopStep)
    requires LoopEnabled(s, l) && !l.TakeUp? && !l.CollectTimer?
    ensures LoopApply(s, l).calls == s.calls
  {
    match l
    case Dequeue(w) => TakeCalls(s, w);
    case CheckStopping(w) => CheckCalls(s, w);
    case _ =>
  }

  lemma TakeCalls(s: State, w: WorkerId)
    requires w in s.workers
    ensures TakeFirst(s, w).calls == s.calls
  {
    var i := Scan(s.queue, w, s.fibers);
    if i < |s.queue| {
      assert Take(s, w, i).calls == s.calls;
    } else {
      assert Shift(s, w, s.workers[w].(pc := NoTask), s.idle).calls == s.calls;
    }
  }

  lemma CheckCalls(s: State, w: WorkerId)
    requires w in s.workers
    ensures Check(s, w).calls == s.calls
  {
    if MayStop(s) {
      assert Shift(s, w, s.workers[w].(pc := Head, idleDone := true), s.idle - 1).calls == s.calls;
    } else {
      assert Shift(s, w, s.workers[w].(pc := Polling({})), s.idle).calls == s.calls;
    }
  }

  /** A call keeps its key and its fiber, it ends exactly with one of the steps that give control
      back, and only the check of its own lambda marks it. */
  lemma StepCall(s: State, st: Step, c: CallId)
    requires Enabled(s, st) && c in s.calls && c != s.nextCall
    ensures GoesOn(s.calls, Apply(s, st).calls, c, Marks(s, st, c), Ends(s, st, c))
  {
    match st
    case Code(u) => UserCalls(s, u);
    case Hook(h) => HookGoesOn(s, h, c);
    case Loop(CollectTimer(w, t)) => CollectGoesOn(s, w, t, c);
    case Loop(TakeUp(w)) => TakeUpGoesOn(s, w, c);
    case Loop(l) => LoopCalls(s, l);
  }

  lemma KnownCall(s: State, c: CallId)
    requires Reachable(s) && c in s.calls
    ensures c != s.nextCall
  {
    ReachableInv(s);
  }

  // ---------------------------------------------------------------- calls that are over

  predicate Over(s: State, c: CallId) {
    c in s.calls && !s.calls[c].alive
  }

  /** The step belongs to this call or to one of its time-out lambdas. */
  predicate StepOf(h: HookStep, c: CallId) {
    !h.CallBegin? && !h.ResumeSleeper? && h.c == c
  }

  /** The step does nothing but move the fiber that takes it on to its end. */
  predicate Harmless(s: State, h: HookStep)
    requires HookEnabled(s, h)
  {
    HookApply(s, h) == SetProg(s, Cur(s, h.w), Free)
  }

  ghost predicate CanAct(s: State, c: CallId) {
    exists h :: HookEnabled(s, h) && StepOf(h, c) && !Harmless(s, h)
  }

  lemma OverCanOnly(s: State, h: HookStep, c: CallId)
    requires Reachable(s) && Over(s, c) && HookEnabled(s, h) && StepOf(h, c)
    ensures (h.TimeoutCheck? && Harmless(s, h)) || (h.TimeoutCancel? && CancelUnderWay(s, c))
  {
    OverOutside(s, h, c);
    if h.TimeoutCheck? {
      assert ExpireCall(s, Cur(s, h.w), c) == SetProg(s, Cur(s, h.w), Free);
    } else {
      assert Cur(s, h.w) in Cancellers(s.fibers, c);
    }
  }

  lemma OverOutside(s: State, h: HookStep, c: CallId)
    requires Reachable(s) && Over(s, c) && HookEnabled(s, h) && StepOf(h, c)
    ensures h.TimeoutCheck? || h.TimeoutCancel?
  {
    if s.fibers[Cur(s, h.w)].prog.InCall? {
      InCallAlive(s, Cur(s, h.w));
    }
  }

  lemma InCallAlive(s: State, f: FiberId)
    requires Reachable(s) && f in s.fibers && s.fibers[f].prog.InCall?
    ensures s.fibers[f].prog.call in s.calls && s.calls[s.fibers[f].prog.call].alive
  {
    ReachableInv(s);
  }

  /** The lambda that is about to cancel is executing on some worker. */
  lemma CancellerRuns(s: State, c: CallId) returns (w: WorkerId)
    requires Reachable(s) && CancelUnderWay(s, c)
    ensures HookEnabled(s, TimeoutCancel(w, c)) && s.calls[c].flag
  {
    ReachableInv(s);
    var g :| g in Cancellers(s.fibers, c);
    assert IsCanceller(s.fibers, g, c) && FiberOk(s.fibers[g]);
    w := s.fibers[g].state.worker;
    assert Running(s, w);
  }

  /** What a call can still cause after it has returned.  Its lambda may be past its check
      then: it triggers whatever is registered under the key by now.  If none is, the call
      causes nothing any more. */
  lemma OverActsIff(s: State, c: CallId)
    requires Reachable(s) && Over(s, c)
    ensures CanAct(s, c) <==> CancelUnderWay(s, c) && s.calls[c].key in s.regs
    ensures forall h | HookEnabled(s, h) && StepOf(h, c) && !Harmless(s, h) ::
              s.calls[c].key in s.regs && HookApply(s, h).queue == s.queue + [Entry(s.regs[s.calls[c].key], None)]
  {
    forall h | HookEnabled(s, h) && StepOf(h, c) && !Harmless(s, h)
      ensures CancelUnderWay(s, c) && s.calls[c].key in s.regs
      ensures HookApply(s, h).queue == s.queue + [Entry(s.regs[s.calls[c].key], None)]
    {
      OverCanOnly(s, h, c);
      CancelDoes(s, h.w, c);
    }
    if CancelUnderWay(s, c) && s.calls[c].key in s.regs {
      var w := CancellerRuns(s, c);
      CancelDoes(s, w, c);
      assert StepOf(TimeoutCancel(w, c), c);
    }
  }

  lemma CancelDoes(s: State, w: WorkerId, c: CallId)
    requires HookEnabled(s, TimeoutCancel(w, c))
    ensures Harmless(s, TimeoutCancel(w, c)) <==> s.calls[c].key !in s.regs
    ensures s.calls[c].key in s.regs ==>
              HookApply(s, TimeoutCancel(w, c)).queue == s.queue + [Entry(s.regs[s.calls[c].key], None)]
  {
    var g, k := Cur(s, w), s.calls[c].key;
    var s1 := SetProg(s, g, Free);
    ProgCalls(s, g, Free);
    if k in s.regs {
      assert CancelCall(s, g, c) == Fire(s1, k);
      FireDoes(s1, k);
      assert |Fire(s1, k).queue| == |s1.queue| + 1;
    } else {
      assert CancelCall(s, g, c) == s1;
    }
  }

  /** Returned, and nothing of it is left that could act. */
  predicate Gone(s: State, c: CallId) {
    Over(s, c) && !CancelUnderWay(s, c)
  }

  lemma GoneStays(s: State, st: Step, c: CallId)
    requires Reachable(s) && Enabled(s, st) && Gone(s, c)
    ensures Gone(Apply(s, st), c)
    ensures st.Hook? && StepOf(st.h, c) ==> Harmless(s, st.h)
  {
    KnownCall(s, c);
    StepCall(s, st, c);
    StepCancels(s, st, c);
    if st.Hook? && StepOf(st.h, c) {
      OverCanOnly(s, st.h, c);
    }
  }

  predicate HarmlessRun(s: State, steps: seq<Step>, c: CallId)
    requires Valid(s, steps)
    decreases |steps|
  {
    steps == []
    || ((steps[0].Hook? && StepOf(steps[0].h, c) ==> Harmless(s, steps[0].h)) && HarmlessRun(Apply(s, steps[0]), steps[1..], c))
  }

  /** In no run does such a call cause anything any more. */
  lemma {:induction false} GoneForever(s: State, steps: seq<Step>, c: CallId)
    requires Reachable(s) && Valid(s, steps) && Gone(s, c)
    ensures Gone(After(s, steps), c) && HarmlessRun(s, steps, c)
    decreases |steps|
  {
    if steps != [] {
      GoneStays(s, steps[0], c);
      ReachableStep(s, steps[0]);
      GoneForever(Apply(s, steps[0]), steps[1..], c);
    }
  }
}
