/**
  The hooked blocking calls: what a call may rely on when it returns, and exactly when its
  time-out can get lost.
*/
module RuntimeTimeouts {
  import opened Prelude
  import opened Runtime
  import opened RuntimeInvariant
  import opened RuntimeCalls
  import opened RuntimeSteps
  import opened RuntimeHistory
  import opened RuntimeTheorems
  import opened RuntimeCancels

  /** A returning call is over; it reports a time-out only if its own timer expired, and the
      number of times it was resumed is the number of its registrations. */
  lemma CallOver(s: State, c: CallId)
    requires Reachable(s) && c in s.calls && !s.calls[c].alive
    ensures s.calls[c].attempts == s.calls[c].resumes
    ensures s.calls[c].timedOut ==> s.calls[c].flag && s.calls[c].fired > 0
    ensures forall t | t in s.timers :: !IsTimeout(s.timers[t].ticket.task, c)
  {
    ReachableInv(s);
    assert AttemptOk(s.calls[c], s.fibers[s.calls[c].fiber], s.place);
  }

  /** No ticket anywhere can resume the fiber. */
  ghost predicate NothingPending(s: State, f: FiberId) {
    forall tk | tk in s.place && Carries(tk.task) == Some(f) :: !CanResume(s.place[tk], tk.task, s.fibers)
  }

  lemma NoWakeNothingPending(s: State, f: FiberId)
    requires Reachable(s) && f in s.fibers && s.fibers[f].wake == None
    ensures NothingPending(s, f)
  {
    ReachableInv(s);
  }

  /** A call at any point other than the suspension has no wake under way. */
  lemma RunningCall(s: State, w: WorkerId, c: CallId, at: CallPoint)
    requires Reachable(s) && RunsCall(s, w, c, at) && !at.Suspending?
    ensures s.calls[c].alive && s.calls[c].fiber == Cur(s, w) && s.fibers[Cur(s, w)].wake == None
  {
    ReachableInv(s);
    assert AttemptOk(s.calls[c], s.fibers[s.calls[c].fiber], s.place);
  }

  lemma EndCallLeavesNoWake(s: State, f: FiberId, c: CallId, timedOut: bool)
    requires f in s.fibers && c in s.calls && s.fibers[f].wake == None
    ensures var s' := EndCall(s, f, c, timedOut);
            && f in s'.fibers && s'.fibers[f].wake == None && s'.fibers[f].prog == Free
            && c in s'.calls && !s'.calls[c].alive && s'.calls[c].timedOut == timedOut
  {
  }

  lemma ReturnLeavesNoWake(s: State, h: HookStep)
    requires HookEnabled(s, h) && Returns(s, h) && s.fibers[Cur(s, h.w)].wake == None
    ensures var s', f := HookApply(s, h), Cur(s, h.w);
            && f in s'.fibers && s'.fibers[f].wake == None && s'.fibers[f].prog == Free
            && h.c in s'.calls && !s'.calls[h.c].alive
            && s'.calls[h.c].timedOut == (h.CallCheck? && s.calls[h.c].flag)
  {
    var f := Cur(s, h.w);
    match h
    case CallReturns(w, c) => EndCallLeavesNoWake(s, f, c, false);
    case CallFail(w, c) => EndCallLeavesNoWake(CancelCallTimer(s, c), f, c, false);
    case CallCheck(w, c) => EndCallLeavesNoWake(s, f, c, s.calls[c].flag);
  }

  /** What holds when a hooked call returns: no timer of its own is armed, no registration
      or other ticket can resume its fiber any more, it was resumed once per attempt, and
      ETIMEDOUT means that one of its own timers has expired.  A call that returns with
      tinfo->cancelled still 0 never causes anything again (`GoneForever`); any other one can
      only do so through a lambda that is past its check already (`OverActsIff`). */
  lemma CallReturnsClean(s: State, h: HookStep)
    requires Reachable(s) && HookEnabled(s, h) && Returns(s, h)
    ensures var s', f, c := HookApply(s, h), Cur(s, h.w), h.c;
            && c in s'.calls && !s'.calls[c].alive
            && (forall t | t in s'.timers :: !IsTimeout(s'.timers[t].ticket.task, c))
            && (forall k | k in s'.regs :: Carries(s'.regs[k].task) != Some(f))
            && NothingPending(s', f)
            && s'.calls[c].attempts == s'.calls[c].resumes
            && s'.calls[c].timedOut == (h.CallCheck? && s.calls[c].flag)
            && (s'.calls[c].timedOut ==> s'.calls[c].fired > 0)
            && (!s.calls[c].flag ==> Gone(s', c))
  {
    var s', f, c := HookApply(s, h), Cur(s, h.w), h.c;
    RunningCall(s, h.w, c, if h.CallReturns? then Trying else if h.CallFail? then Failing else Checking);
    ReturnLeavesNoWake(s, h);
    ReachableStep(s, Hook(h));
    assert s' == Apply(s, Hook(h));
    CallOver(s', c);
    NoWakeNothingPending(s', f);
    forall k | k in s'.regs ensures Carries(s'.regs[k].task) != Some(f) {
      RegisteredPlace(s', k);
    }
    if !s.calls[c].flag {
      UnmarkedGone(s, h);
    }
  }

  lemma UnmarkedGone(s: State, h: HookStep)
    requires Reachable(s) && HookEnabled(s, h) && Returns(s, h) && Over(HookApply(s, h), h.c) && !s.calls[h.c].flag
    ensures Gone(HookApply(s, h), h.c)
  {
    if CancelUnderWay(s, h.c) {
      var w := CancellerRuns(s, h.c);
    }
    StepCancels(s, Hook(h), h.c);
  }

  // ---------------------------------------------------------------- the way through a call

  /** The points of do_io and connect_with_timeout, and the ways between them. */
  predicate Way(at: CallPoint, at': CallPoint) {
    || at == at'
    || (at.Trying? && at'.Arming?)
    || (at.Arming? && at'.Registering?)
    || (at.Registering? && (at'.Suspending? || at'.Failing?))
    || (at.Suspending? && at'.Woken?)
    || (at.Woken? && at'.Checking?)
    || (at.Checking? && at'.Trying?)
  }

  /** A call is over after a step, and was not before, exactly if the step is one of its own and
      gives control back: its system call did not block, addEvent failed, or after the wake it was
      marked or does not retry. */
  lemma CallEndsIff(s: State, st: Step, c: CallId)
    requires Reachable(s) && Enabled(s, st) && c in s.calls && s.calls[c].alive
    ensures var s' := Apply(s, st);
            && c in s'.calls
            && (!s'.calls[c].alive <==>
                  exists w :: st == Hook(CallReturns(w, c)) || st == Hook(CallFail(w, c))
                              || (st == Hook(CallCheck(w, c)) && (s.calls[c].flag || !s.calls[c].retries)))
  {
    KnownCall(s, c);
    if Ends(s, st, c) {
      assert st == Hook(CallReturns(st.h.w, c)) || st == Hook(CallFail(st.h.w, c)) || st == Hook(CallCheck(st.h.w, c));
    }
    StepCall(s, st, c);
  }

  /** Where a step of a call that does not give control back leads. */
  lemma CallStepsOn(s: State, h: HookStep, at: CallPoint)
    requires Reachable(s) && HookEnabled(s, h) && !Returns(s, h)
    requires !h.CallBegin? && !h.ResumeSleeper? && !h.TimeoutCheck? && !h.TimeoutCancel?
    requires RunsCall(s, h.w, h.c, at)
    ensures var s', f := HookApply(s, h), Cur(s, h.w);
            && h.c in s'.calls && s'.calls[h.c].alive && f in s'.fibers
            && s'.fibers[f].prog.InCall? && s'.fibers[f].prog.call == h.c && Way(at, s'.fibers[f].prog.at)
            && (at != s'.fibers[f].prog.at || (at.Suspending? && s.fibers[f].state.EXEC? && s'.fibers[f].state.HOLD?))
  {
    Executing(s, h.w);
    InCallAlive(s, Cur(s, h.w));
    CallEndsIff(s, Hook(h), h.c);
    StepPoint(s, h);
  }

  lemma StepPoint(s: State, h: HookStep)
    requires HookEnabled(s, h) && !Returns(s, h)
    requires !h.CallBegin? && !h.ResumeSleeper? && !h.TimeoutCheck? && !h.TimeoutCancel?
    ensures var s', f := HookApply(s, h), Cur(s, h.w);
            && f in s'.fibers
            && match h {
                 case CallBlocks(w, c) => s'.fibers[f].prog == InCall(c, Arming)
                 case CallArm(w, c) => s'.fibers[f].prog == InCall(c, Registering)
                 case CallRegister(w, c) => s'.fibers[f].prog == InCall(c, Suspending)
                 case CallRegisterFails(w, c) => s'.fibers[f].prog == InCall(c, Failing)
                 case CallSuspend(w, c) => s'.fibers[f].prog == s.fibers[f].prog && s'.fibers[f].state.HOLD?
                 case CallDisarm(w, c) => s'.fibers[f].prog == InCall(c, Checking)
                 case CallCheck(w, c) => s'.fibers[f].prog == InCall(c, Trying)
               }
  {
    var f := Cur(s, h.w);
    match h
    case CallBlocks(w, c) => ProgOnly(s, f, InCall(c, Arming));
    case CallArm(w, c) => ArmFibers(s, f, c);
    case CallRegister(w, c) => RegisterCallIs(s, w, c);
    case CallRegisterFails(w, c) => ProgOnly(s, f, InCall(c, Failing));
    case CallSuspend(w, c) => assert EndHold(s, w).fibers[f].state.HOLD?;
    case CallDisarm(w, c) => ProgOnly(CancelCallTimer(s, c), f, InCall(c, Checking));
    case CallCheck(w, c) => ProgOnly(s, f, InCall(c, Trying));
  }

  /** goto retry: after a wake without time-out a call that retries issues its system call again,
      which may return or block. */
  lemma Retries(s: State, w: WorkerId, c: CallId)
    requires Reachable(s) && HookEnabled(s, CallCheck(w, c)) && !s.calls[c].flag && s.calls[c].retries
    ensures var s' := HookApply(s, CallCheck(w, c));
            && s'.calls == s.calls && s'.calls[c].alive
            && RunsCall(s', w, c, Trying) && Cur(s', w) == Cur(s, w)
            && HookEnabled(s', CallReturns(w, c)) && HookEnabled(s', CallBlocks(w, c))
  {
    var f := Cur(s, w);
    InCallAlive(s, f);
    StepPoint(s, CallCheck(w, c));
    ProgCalls(s, f, InCall(c, Trying));
    assert HookApply(s, CallCheck(w, c)) == SetProg(s, f, InCall(c, Trying));
    assert SetProg(s, f, InCall(c, Trying)).workers == s.workers;
  }

  /** A new call is the one that was asked for, about to issue its system call. */
  lemma CallBegins(s: State, w: WorkerId, k: Key, limited: bool, retries: bool)
    requires Reachable(s) && HookEnabled(s, CallBegin(w, k, limited, retries))
    ensures var s', c := HookApply(s, CallBegin(w, k, limited, retries)), s.nextCall;
            && c !in s.calls && c in s'.calls && s'.calls[c].alive && s'.calls[c].fiber == Cur(s, w)
            && s'.calls[c].key == k && s'.calls[c].limited == limited && s'.calls[c].retries == retries
            && !s'.calls[c].flag && s'.calls[c].timer == None && RunsCall(s', w, c, Trying)
  {
    ReachableInv(s);
    var s', f := BeginCall(s, Cur(s, w), k, limited, retries), Cur(s, w);
    assert s'.fibers == s.fibers[f := s.fibers[f].(prog := InCall(s.nextCall, Trying))];
    assert s'.workers == s.workers;
  }

  /** A suspended call waits for one ticket: its registration, its way through the queue, or
      nothing any more if somebody deleted the registration. */
  lemma SuspendedCall(s: State, c: CallId)
    requires Reachable(s) && c in s.calls && s.calls[c].alive
    requires s.calls[c].fiber in s.fibers && s.fibers[s.calls[c].fiber].prog == InCall(c, Suspending)
    ensures s.calls[c].attempts == s.calls[c].resumes + 1
    ensures s.calls[c].ticket.Some? && s.calls[c].ticket.value in s.place
    ensures var p := s.place[s.calls[c].ticket.value];
            p == Registered(s.calls[c].key) || p.Queued? || p.InHand? || p.Deleted?
  {
    ReachableInv(s);
    assert AttemptOk(s.calls[c], s.fibers[s.calls[c].fiber], s.place);
  }

  // ---------------------------------------------------------------- lost time-outs

  predicate Waiting(s: State, c: CallId) {
    && c in s.calls && s.calls[c].alive && s.calls[c].limited
    && s.calls[c].fiber in s.fibers && s.fibers[s.calls[c].fiber].prog == InCall(c, Suspending)
    && s.calls[c].ticket.Some? && At(s.place, s.calls[c].ticket.value, Registered(s.calls[c].key))
  }

  /** A waiting call whose time-out lambda came too early: it is marked already, and no
      lambda is on its way to cancel the registration. */
  ghost predicate Lost(s: State, c: CallId) {
    Waiting(s, c) && s.calls[c].flag && !CancelUnderWay(s, c)
  }

  /** As long as a waiting call is not marked, its timer or the ticket of that timer is
      still on its way to the check of the flag. */
  lemma UnmarkedRings(s: State, c: CallId)
    requires Reachable(s) && Waiting(s, c) && !s.calls[c].flag
    ensures s.calls[c].ring.Some? && Ringing(s.calls[c].ring.value, c, s.place, s.fibers)
  {
    ReachableInv(s);
  }

  /** A time-out that is under way ends the wait. */
  lemma TimeoutDelivers(s: State, w: WorkerId, c: CallId)
    requires Reachable(s) && Waiting(s, c) && HookEnabled(s, TimeoutCancel(w, c))
    ensures var s' := HookApply(s, TimeoutCancel(w, c));
            At(s'.place, s.calls[c].ticket.value, Queued) && InQueue(s'.queue, s.calls[c].ticket.value)
  {
    var tk, g, s' := s.calls[c].ticket.value, Cur(s, w), HookApply(s, TimeoutCancel(w, c));
    PlaceRegistered(s, tk);
    assert s'.queue[|s.queue|].ticket == tk;
  }

  /** The check of the flag by the lambda of an unmarked waiting call is followed by its
      cancelEvent, and that ends the wait. */
  lemma RingEndsWait(s: State, w: WorkerId, c: CallId)
    requires Reachable(s) && Waiting(s, c) && !s.calls[c].flag && HookEnabled(s, TimeoutCheck(w, c))
    ensures var s1 := HookApply(s, TimeoutCheck(w, c));
            && Waiting(s1, c) && HookEnabled(s1, TimeoutCancel(w, c))
            && At(HookApply(s1, TimeoutCancel(w, c)).place, s.calls[c].ticket.value, Queued)
  {
    var s1 := HookApply(s, TimeoutCheck(w, c));
    var s2 := s.(calls := s.calls[c := s.calls[c].(flag := true)]);
    assert s1 == SetProg(s2, Cur(s, w), Cancelling(c));
    assert s1.calls == s2.calls && s1.place == s.place && s1.workers == s.workers;
    ReachableStep(s, Hook(TimeoutCheck(w, c)));
    TimeoutDelivers(s1, w, c);
  }

  // ---------------------------------------------------------------- when a time-out is lost

  /** It is decided at addEvent: the time-out is lost exactly if the call is marked by then
      and the cancelEvent of its lambda has run as well. */
  lemma LostAtAdd(s: State, w: WorkerId, c: CallId)
    requires Reachable(s) && HookEnabled(s, CallRegister(w, c)) && s.calls[c].limited
    ensures Waiting(HookApply(s, CallRegister(w, c)), c)
    ensures Lost(HookApply(s, CallRegister(w, c)), c) <==> s.calls[c].flag && !CancelUnderWay(s, c)
  {
    var s' := HookApply(s, CallRegister(w, c));
    RunningCall(s, w, c, Registering);
    RegisterCallIs(s, w, c);
    StepCancels(s, Hook(CallRegister(w, c)), c);
  }

  /** While the call waits, its time-out neither gets lost nor comes back. */
  lemma LostUnchanged(s: State, st: Step, c: CallId)
    requires Reachable(s) && Enabled(s, st) && Waiting(s, c) && Waiting(Apply(s, st), c)
    ensures Lost(Apply(s, st), c) <==> Lost(s, c)
  {
    KnownCall(s, c);
    StepCall(s, st, c);
    StepCancels(s, st, c);
    if Cancels(st, c) {
      TimeoutDelivers(s, st.h.w, c);
      CancelCalls(s, Cur(s, st.h.w), c);
    }
  }

  predicate WaitsOn(s: State, steps: seq<Step>, c: CallId)
    requires Valid(s, steps)
    decreases |steps|
  {
    Waiting(s, c) && (steps == [] || WaitsOn(Apply(s, steps[0]), steps[1..], c))
  }

  lemma {:induction false} LostOrNot(s: State, steps: seq<Step>, c: CallId)
    requires Reachable(s) && Valid(s, steps) && WaitsOn(s, steps, c)
    ensures Lost(After(s, steps), c) <==> Lost(s, c)
    decreases |steps|
  {
    if steps != [] {
      LostUnchanged(s, steps[0], c);
      ReachableStep(s, steps[0]);
      LostOrNot(Apply(s, steps[0]), steps[1..], c);
    }
  }

  /** So in every run in which the call waits on, its time-out is lost if and only if the
      call was marked, and the lambda through with it, when addEvent was called. */
  lemma LostIffTooEarly(s: State, w: WorkerId, c: CallId, steps: seq<Step>)
    requires Reachable(s) && HookEnabled(s, CallRegister(w, c)) && s.calls[c].limited
    requires Valid(HookApply(s, CallRegister(w, c)), steps) && WaitsOn(HookApply(s, CallRegister(w, c)), steps, c)
    ensures Lost(After(HookApply(s, CallRegister(w, c)), steps), c) <==> s.calls[c].flag && !CancelUnderWay(s, c)
  {
    LostAtAdd(s, w, c);
    ReachableStep(s, Hook(CallRegister(w, c)));
    LostOrNot(HookApply(s, CallRegister(w, c)), steps, c);
  }

  // ---------------------------------------------------------------- a lost time-out stays lost

  /** The step triggers or deletes the registration of the key. */
  predicate Frees(s: State, st: Step, k: Key) {
    match st
    case Code(DelEvent(_, j)) => j == k
    case Code(CancelEvent(_, j)) => j == k
    case Loop(Dispatch(_, j)) => j == k
    case Hook(TimeoutCancel(_, c)) => c in s.calls && s.calls[c].key == k
    case _ => false
  }

  predicate RegKept(s: State, s': State, k: Key) {
    k in s.regs && k in s'.regs && s'.regs[k] == s.regs[k]
  }

  lemma UserRegKept(s: State, u: UserStep, k: Key)
    requires UserEnabled(s, u) && k in s.regs && !Frees(s, Code(u), k)
    ensures RegKept(s, UserApply(s, u), k)
  {
  }

  lemma RegisterCallKept(s: State, f: FiberId, c: CallId, k: Key)
    requires f in s.fibers && c in s.calls && s.calls[c].key !in s.regs && k in s.regs
    ensures RegKept(s, RegisterCall(s, f, c), k)
  {
  }

  lemma CancelCallKept(s: State, g: FiberId, c: CallId, k: Key)
    requires g in s.fibers && c in s.calls && s.calls[c].key != k && k in s.regs
    ensures RegKept(s, CancelCall(s, g, c), k)
  {
  }

  lemma ArmCallRegKept(s: State, f: FiberId, c: CallId, k: Key)
    requires f in s.fibers && c in s.calls && k in s.regs
    ensures RegKept(s, ArmCall(s, f, c), k)
  {
  }

  lemma CheckCallRegKept(s: State, f: FiberId, c: CallId, k: Key)
    requires f in s.fibers && c in s.calls && k in s.regs
    ensures RegKept(s, CheckCall(s, f, c), k)
  {
  }

  lemma ExpireRegKept(s: State, g: FiberId, c: CallId, k: Key)
    requires g in s.fibers && k in s.regs
    ensures RegKept(s, ExpireCall(s, g, c), k)
  {
  }

  lemma TimerRegKept(s: State, c: CallId, k: Key)
    requires c in s.calls && k in s.regs
    ensures RegKept(s, CancelCallTimer(s, c), k)
  {
  }

  lemma OtherHookRegKept(s: State, h: HookStep, k: Key)
    requires HookEnabled(s, h) && k in s.regs && !h.CallRegister? && !h.TimeoutCancel?
    ensures RegKept(s, HookApply(s, h), k)
  {
    match h
    case CallArm(w, c) => ArmCallRegKept(s, Cur(s, w), c, k);
    case CallFail(w, c) => TimerRegKept(s, c, k);
    case CallDisarm(w, c) => TimerRegKept(s, c, k);
    case CallCheck(w, c) => CheckCallRegKept(s, Cur(s, w), c, k);
    case TimeoutCheck(w, c) => ExpireRegKept(s, Cur(s, w), c, k);
    case _ =>
  }

  lemma HookRegKept(s: State, h: HookStep, k: Key)
    requires HookEnabled(s, h) && k in s.regs && !Frees(s, Hook(h), k)
    ensures RegKept(s, HookApply(s, h), k)
  {
    if h.CallRegister? {
      RegisterCallKept(s, Cur(s, h.w), h.c, k);
    } else if h.TimeoutCancel? {
      CancelCallKept(s, Cur(s, h.w), h.c, k);
    } else {
      OtherHookRegKept(s, h, k);
    }
  }

  lemma TakeUpRegKept(s: State, w: WorkerId, k: Key)
    requires LoopEnabled(s, TakeUp(w)) && k in s.regs
    ensures RegKept(s, TakeUpHand(s, w), k)
  {
  }

  lemma LoopRegKept(s: State, l: LoopStep, k: Key)
    requires LoopEnabled(s, l) && k in s.regs && !Frees(s, Loop(l), k)
    ensures RegKept(s, LoopApply(s, l), k)
  {
    match l
    case Dequeue(w) => assert RegKept(s, TakeFirst(s, w), k);
    case TakeUp(w) => TakeUpRegKept(s, w, k);
    case CollectTimer(w, t) => assert RegKept(s, Collect(s, w, t), k);
    case _ =>
  }

  /** Only these steps end a registration. */
  lemma StepRegKept(s: State, st: Step, k: Key)
    requires Enabled(s, st) && k in s.regs && !Frees(s, st, k)
    ensures RegKept(s, Apply(s, st), k)
  {
    match st
    case Code(u) => UserRegKept(s, u, k);
    case Hook(h) => HookRegKept(s, h, k);
    case Loop(l) => LoopRegKept(s, l, k);
  }

  /** The call as its fiber and its time-out see it is the same in both states. */
  predicate SameCall(s: State, s': State, c: CallId) {
    && c in s.calls && c in s'.calls
    && s'.calls[c] == s.calls[c].(fired := s'.calls[c].fired)
    && s.calls[c].fiber in s.fibers && s.calls[c].fiber in s'.fibers
    && s'.fibers[s.calls[c].fiber].prog == s.fibers[s.calls[c].fiber].prog
  }

  /** The fiber of the call is suspended in it and nobody is about to reuse or resume it. */
  ghost predicate Apart(s: State, c: CallId) {
    && c in s.calls && c != s.nextCall && s.calls[c].flag
    && var f := s.calls[c].fiber;
    && f in s.fibers && f != s.nextFiber && s.fibers[f].prog == InCall(c, Suspending)
    && (forall w | w in s.workers && s.workers[w].pc.Hand? ::
          s.workers[w].spare != Some(f) && s.workers[w].pc.ticket.task != Wake(f))
    && (forall g | g in s.fibers && s.fibers[g].prog.InCall? && s.fibers[g].prog.call == c :: g == f)
  }

  lemma LostApart(s: State, c: CallId)
    requires Reachable(s) && Lost(s, c)
    ensures Apart(s, c)
  {
    forall w | w in s.workers && s.workers[w].pc.Hand?
      ensures s.workers[w].spare != Some(s.calls[c].fiber) && s.workers[w].pc.ticket.task != Wake(s.calls[c].fiber)
    {
      if s.workers[w].spare.Some? {
        SpareAtHead(s, w);
      }
      LostNotInHand(s, c, w);
    }
    LostKnown(s, c);
    OneFiberPerCall(s, c);
  }

  lemma OneFiberPerCall(s: State, c: CallId)
    requires Reachable(s) && c in s.calls && s.calls[c].alive
    ensures forall g | g in s.fibers && s.fibers[g].prog.InCall? && s.fibers[g].prog.call == c :: g == s.calls[c].fiber
  {
    ReachableInv(s);
  }

  lemma LostKnown(s: State, c: CallId)
    requires Reachable(s) && Lost(s, c)
    ensures c != s.nextCall && s.calls[c].fiber != s.nextFiber
  {
    ReachableInv(s);
  }

  lemma LostNotInHand(s: State, c: CallId, w: WorkerId)
    requires Reachable(s) && Lost(s, c) && w in s.workers && s.workers[w].pc.Hand?
    ensures s.workers[w].pc.ticket.task != Wake(s.calls[c].fiber)
    ensures s.workers[w].spare != Some(s.calls[c].fiber)
  {
    ReachableInv(s);
    var tk := s.workers[w].pc.ticket;
    assert At(s.place, tk, InHand(w));
    if tk.task == Wake(s.calls[c].fiber) {
      assert AttemptOk(s.calls[c], s.fibers[s.calls[c].fiber], s.place);
      OneWake(s, tk, s.calls[c].ticket.value);
    }
    if s.workers[w].spare.Some? {
      SpareAtHead(s, w);
      assert FiberOk(s.fibers[s.workers[w].spare.value]);
    }
  }

  lemma PairKept(s: State, s': State, c: CallId, f: FiberId, fb: Fiber, d: CallId, ci: CallInfo)
    requires Apart(s, c) && f != s.calls[c].fiber && d != c
    requires s'.fibers == s.fibers[f := fb]
    requires s'.calls == s.calls[d := ci]
    ensures SameCall(s, s', c)
  {
  }

  lemma FiberKept(s: State, s': State, c: CallId, f: FiberId, fb: Fiber)
    requires Apart(s, c) && f in s.fibers
    requires fb.prog == s.fibers[f].prog || f != s.calls[c].fiber
    requires s'.fibers == s.fibers[f := fb]
    requires s'.calls == s.calls
    ensures SameCall(s, s', c)
  {
  }

  lemma NothingKept(s: State, s': State, c: CallId)
    requires Apart(s, c) && s'.fibers == s.fibers && s'.calls == s.calls
    ensures SameCall(s, s', c)
  {
  }

  lemma FinishKept(s: State, w: WorkerId, threw: bool, c: CallId)
    requires Apart(s, c) && Running(s, w) && s.fibers[Cur(s, w)].prog == Free
    ensures SameCall(s, EndFinish(s, w, threw), c)
  {
    var s' := EndFinish(s, w, threw);
    FiberKept(s, s', c, Cur(s, w), s'.fibers[Cur(s, w)]);
  }

  lemma HoldKept(s: State, w: WorkerId, c: CallId)
    requires Apart(s, c) && Running(s, w)
    ensures SameCall(s, EndHold(s, w), c)
  {
    var s' := EndHold(s, w);
    FiberKept(s, s', c, Cur(s, w), s'.fibers[Cur(s, w)]);
  }

  lemma YieldReadyKept(s: State, w: WorkerId, c: CallId)
    requires Apart(s, c) && Running(s, w) && s.fibers[Cur(s, w)].prog == Free
    ensures SameCall(s, Push(EndHold(s, w), Wake(Cur(s, w)), None), c)
  {
    var s' := Push(EndHold(s, w), Wake(Cur(s, w)), None);
    FiberKept(s, s', c, Cur(s, w), s'.fibers[Cur(s, w)]);
  }

  predicate Yields(u: UserStep) {
    u.YieldHold? || u.YieldReady? || u.Finish?
  }

  lemma YieldKept(s: State, u: UserStep, c: CallId)
    requires UserEnabled(s, u) && Apart(s, c) && Yields(u)
    ensures SameCall(s, UserApply(s, u), c)
  {
    match u
    case YieldHold(w) => HoldKept(s, w, c);
    case YieldReady(w) => YieldReadyKept(s, w, c);
    case Finish(w, threw) => FinishKept(s, w, threw, c);
  }

  lemma UserKept(s: State, u: UserStep, c: CallId)
    requires UserEnabled(s, u) && Apart(s, c)
    ensures SameCall(s, UserApply(s, u), c)
  {
    if Yields(u) {
      YieldKept(s, u, c);
    } else if u.AddTimer? || u.CancelTimer? || u.CancelEvent? {
      NothingKept(s, UserApply(s, u), c);
    }
  }

  lemma EndKept(s: State, f: FiberId, d: CallId, timedOut: bool, c: CallId)
    requires Apart(s, c) && f in s.fibers && f != s.calls[c].fiber && d in s.calls && d != c
    ensures SameCall(s, EndCall(s, f, d, timedOut), c)
  {
  }

  lemma BeginKept(s: State, f: FiberId, k: Key, limited: bool, retries: bool, c: CallId)
    requires Apart(s, c) && f in s.fibers && f != s.calls[c].fiber
    ensures SameCall(s, BeginCall(s, f, k, limited, retries), c)
  {
  }

  lemma ProgKept(s: State, f: FiberId, p: Prog, c: CallId)
    requires Apart(s, c) && f in s.fibers && f != s.calls[c].fiber
    ensures SameCall(s, SetProg(s, f, p), c)
  {
  }

  lemma ArmKept(s: State, f: FiberId, d: CallId, c: CallId)
    requires Apart(s, c) && f in s.fibers && f != s.calls[c].fiber && d in s.calls && d != c
    ensures SameCall(s, ArmCall(s, f, d), c)
  {
    var s' := ArmCall(s, f, d);
    if s.calls[d].limited {
      PairKept(s, s', c, f, s'.fibers[f], d, s'.calls[d]);
    } else {
      ProgKept(s, f, InCall(d, Registering), c);
    }
  }

  lemma RegisterKept(s: State, f: FiberId, d: CallId, c: CallId)
    requires Apart(s, c) && f in s.fibers && f != s.calls[c].fiber && d in s.calls && d != c
    ensures SameCall(s, RegisterCall(s, f, d), c)
  {
  }

  lemma ResumeKept(s: State, g: FiberId, f: FiberId, c: CallId)
    requires Apart(s, c) && f in s.fibers && g in s.fibers && g != s.calls[c].fiber
    ensures SameCall(s, FinishResume(s, g, f), c)
  {
  }

  lemma ExpireKept(s: State, g: FiberId, d: CallId, c: CallId)
    requires Apart(s, c) && g in s.fibers && g != s.calls[c].fiber
    ensures SameCall(s, ExpireCall(s, g, d), c)
  {
    var s' := ExpireCall(s, g, d);
    if d in s.calls && s.calls[d].alive && !s.calls[d].flag {
      PairKept(s, s', c, g, s'.fibers[g], d, s'.calls[d]);
    } else {
      ProgKept(s, g, Free, c);
    }
  }

  lemma CancelKept(s: State, g: FiberId, d: CallId, c: CallId)
    requires Apart(s, c) && g in s.fibers && g != s.calls[c].fiber && d in s.calls
    ensures SameCall(s, CancelCall(s, g, d), c)
  {
    ProgKept(s, g, Free, c);
  }

  lemma CheckKept(s: State, f: FiberId, d: CallId, c: CallId)
    requires Apart(s, c) && f in s.fibers && f != s.calls[c].fiber && d in s.calls && d != c
    ensures SameCall(s, CheckCall(s, f, d), c)
  {
    EndKept(s, f, d, true, c);
    EndKept(s, f, d, false, c);
    ProgKept(s, f, InCall(d, Trying), c);
  }

  lemma TimerKept(s: State, d: CallId, c: CallId)
    requires Apart(s, c) && d in s.calls
    ensures Apart(CancelCallTimer(s, d), c) && SameCall(s, CancelCallTimer(s, d), c)
  {
  }

  lemma DisarmKept(s: State, f: FiberId, d: CallId, c: CallId)
    requires Apart(s, c) && f in s.fibers && f != s.calls[c].fiber && d in s.calls && d != c
    ensures SameCall(s, FailCall(s, f, d), c)
    ensures SameCall(s, SetProg(CancelCallTimer(s, d), f, InCall(d, Checking)), c)
  {
    TimerKept(s, d, c);
    EndKept(CancelCallTimer(s, d), f, d, false, c);
    ProgKept(CancelCallTimer(s, d), f, InCall(d, Checking), c);
  }

  /** A step of a hooked call is a step of another call's fiber, or the suspension itself. */
  lemma OtherFiber(s: State, h: HookStep, c: CallId)
    requires HookEnabled(s, h) && Apart(s, c) && !h.CallSuspend?
    ensures Cur(s, h.w) != s.calls[c].fiber
    ensures !h.CallBegin? && !h.ResumeSleeper? && !h.TimeoutCheck? && !h.TimeoutCancel? ==> h.c != c
  {
  }

  lemma CallKept(s: State, h: HookStep, c: CallId)
    requires HookEnabled(s, h) && Apart(s, c) && Cur(s, h.w) != s.calls[c].fiber
    requires h.CallReturns? || h.CallBlocks? || h.CallArm? || h.CallRegister? || h.CallRegisterFails? || h.CallFail? || h.CallDisarm? || h.CallCheck?
    requires h.c != c
    ensures SameCall(s, HookApply(s, h), c)
  {
    var f := Cur(s, h.w);
    match h
    case CallReturns(w, d) => EndKept(s, f, d, false, c);
    case CallBlocks(w, d) => ProgKept(s, f, InCall(d, Arming), c);
    case CallArm(w, d) => ArmKept(s, f, d, c);
    case CallRegister(w, d) => RegisterKept(s, f, d, c);
    case CallRegisterFails(w, d) => ProgKept(s, f, InCall(d, Failing), c);
    case CallFail(w, d) => DisarmKept(s, f, d, c);
    case CallDisarm(w, d) => DisarmKept(s, f, d, c);
    case CallCheck(w, d) => CheckKept(s, f, d, c);
  }

  lemma HookKept(s: State, h: HookStep, c: CallId)
    requires HookEnabled(s, h) && Apart(s, c)
    ensures SameCall(s, HookApply(s, h), c)
  {
    if h.CallSuspend? {
      HoldKept(s, h.w, c);
    } else {
      OtherFiber(s, h, c);
      match h
      case CallBegin(w, k, limited, retries) => BeginKept(s, Cur(s, w), k, limited, retries, c);
      case ResumeSleeper(w, f) => ResumeKept(s, Cur(s, w), f, c);
      case TimeoutCheck(w, d) => ExpireKept(s, Cur(s, w), d, c);
      case TimeoutCancel(w, d) => CancelKept(s, Cur(s, w), d, c);
      case _ => CallKept(s, h, c);
    }
  }

  lemma SwapInKept(s: State, w: WorkerId, c: CallId)
    requires LoopEnabled(s, TakeUp(w)) && Apart(s, c) && s.workers[w].pc.ticket.task.Wake?
    ensures SameCall(s, SwapIn(s, w), c)
  {
    var f := s.workers[w].pc.ticket.task.fiber;
    var p := s.fibers[f].prog;
    var s' := SwapIn(s, w);
    if p.InCall? && p.call in s.calls {
      PairKept(s, s', c, f, s'.fibers[f], p.call, s'.calls[p.call]);
    } else {
      FiberKept(s, s', c, f, s'.fibers[f]);
    }
  }

  lemma HostKept(s: State, w: WorkerId, c: CallId)
    requires LoopEnabled(s, TakeUp(w)) && Apart(s, c) && s.workers[w].pc.ticket.task.Invoke?
    ensures SameCall(s, SwapInCallback(s, w), c)
  {
  }

  lemma CollectKept(s: State, w: WorkerId, t: TimerId, c: CallId)
    requires LoopEnabled(s, CollectTimer(w, t)) && Apart(s, c)
    ensures SameCall(s, Collect(s, w, t), c)
  {
    if s.timers[t].recurring {
      NothingKept(s, Collect(s, w, t), c);
    } else {
      assert Collect(s, w, t).calls == CountExpiry(s.calls, s.timers[t].ticket.task);
      assert Collect(s, w, t).fibers == s.fibers;
    }
  }

  lemma DequeueKept(s: State, w: WorkerId, c: CallId)
    requires w in s.workers && Apart(s, c)
    ensures SameCall(s, TakeFirst(s, w), c)
  {
    var i := Scan(s.queue, w, s.fibers);
    if i < |s.queue| {
      NothingKept(s, Take(s, w, i), c);
    }
  }

  lemma IdleKept(s: State, l: LoopStep, c: CallId)
    requires LoopEnabled(s, l) && Apart(s, c)
    requires l.EnterIdle? || l.Leave? || l.CheckStopping? || l.LeaveIdle?
    ensures SameCall(s, LoopApply(s, l), c)
  {
  }

  lemma TakeUpKept(s: State, w: WorkerId, c: CallId)
    requires LoopEnabled(s, TakeUp(w)) && Apart(s, c)
    ensures SameCall(s, TakeUpHand(s, w), c)
  {
    var task := s.workers[w].pc.ticket.task;
    if task.Invoke? {
      HostKept(s, w, c);
    } else if s.fibers[task.fiber].state.TERM? || s.fibers[task.fiber].state.EXCEPT? {
      FiberKept(s, Drop(s, w), c, task.fiber, s.fibers[task.fiber].(wake := None));
    } else {
      SwapInKept(s, w, c);
    }
  }

  lemma LoopKept(s: State, l: LoopStep, c: CallId)
    requires LoopEnabled(s, l) && Apart(s, c)
    ensures SameCall(s, LoopApply(s, l), c)
  {
    match l
    case Dequeue(w) => DequeueKept(s, w, c);
    case TakeUp(w) => TakeUpKept(s, w, c);
    case CollectTimer(w, t) => CollectKept(s, w, t, c);
    case SubmitCallback(w, tk) => NothingKept(s, Submit(s, w, tk), c);
    case Dispatch(w, k) => NothingKept(s, Fire(s, k), c);
    case _ => IdleKept(s, l, c);
  }

  lemma StepKept(s: State, st: Step, c: CallId)
    requires Enabled(s, st) && Apart(s, c)
    ensures SameCall(s, Apply(s, st), c)
  {
    match st
    case Code(u) => UserKept(s, u, c);
    case Hook(h) => HookKept(s, h, c);
    case Loop(l) => LoopKept(s, l, c);
  }

  /** A lost time-out stays lost under every step that does not itself trigger or delete
      the registration; in particular no later time-out callback of the call can. */
  lemma LostStays(s: State, st: Step, c: CallId)
    requires Reachable(s) && Enabled(s, st) && Lost(s, c) && !Frees(s, st, s.calls[c].key)
    ensures Lost(Apply(s, st), c) && SameCall(s, Apply(s, st), c)
  {
    var tk, k := s.calls[c].ticket.value, s.calls[c].key;
    LostApart(s, c);
    PlaceRegistered(s, tk);
    StepRegKept(s, st, k);
    StepKept(s, st, c);
    StepCancels(s, st, c);
    ReachableStep(s, st);
    RegisteredPlace(Apply(s, st), k);
  }

  predicate FreesNever(s: State, steps: seq<Step>, k: Key)
    requires Valid(s, steps)
    decreases |steps|
  {
    steps == [] || (!Frees(s, steps[0], k) && FreesNever(Apply(s, steps[0]), steps[1..], k))
  }

  /** So the call sleeps on in every run in which nobody else triggers or deletes the key. */
  lemma {:induction false} LostForever(s: State, steps: seq<Step>, c: CallId)
    requires Reachable(s) && Valid(s, steps) && Lost(s, c) && FreesNever(s, steps, s.calls[c].key)
    ensures Lost(After(s, steps), c)
    decreases |steps|
  {
    if steps != [] {
      LostStays(s, steps[0], c);
      ReachableStep(s, steps[0]);
      LostForever(Apply(s, steps[0]), steps[1..], c);
    }
  }
}
