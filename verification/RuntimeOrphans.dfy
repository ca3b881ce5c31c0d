/**
  Suspended fibers that nothing in the runtime will resume: unless user code keeps a pointer to
  it, such a fiber is destroyed while it is in HOLD, and the assertion of ~Fiber fails.
*/
module RuntimeOrphans {
  import opened Prelude
  import opened Runtime
  import opened RuntimeInvariant
  import opened RuntimeSteps
  import opened RuntimeTheorems
  import opened RuntimeCancels

  /** In HOLD, with no wake outstanding. */
  predicate Orphan(fibers: map<FiberId, Fiber>, f: FiberId) {
    f in fibers && fibers[f].state.HOLD? && fibers[f].wake == None
  }

  /** Something in the runtime can still get at the fiber: an unfinished task that resumes it,
      or a worker that is in it or recycles it. */
  ghost predicate Referenced(s: State, f: FiberId) {
    || (exists tk :: tk in s.place && Carries(tk.task) == Some(f) && CanResume(s.place[tk], tk.task, s.fibers))
    || (exists w :: w in s.workers && (s.workers[w].spare == Some(f) || (s.workers[w].pc.Run? && s.workers[w].pc.fiber == f)))
  }

  /** The runtime can get at a suspended fiber exactly if it is no orphan. */
  lemma HeldFiberReferenced(s: State, f: FiberId)
    requires Reachable(s) && f in s.fibers && s.fibers[f].state.HOLD?
    ensures Referenced(s, f) <==> !Orphan(s.fibers, f)
  {
    ReachableInv(s);
    if s.fibers[f].wake.Some? {
      var tk := s.fibers[f].wake.value;
      assert tk in s.place && Carries(tk.task) == Some(f) && CanResume(s.place[tk], tk.task, s.fibers);
    } else {
      assert FiberOk(s.fibers[f]);
    }
  }

  /** The step leaves f behind as an orphan: it suspends without a wake outstanding, or its only
      wake is deleted. */
  predicate Orphans(s: State, st: Step, f: FiberId) {
    match st
    case Code(YieldHold(w)) => Running(s, w) && Cur(s, w) == f && s.fibers[f].wake == None
    case Hook(CallSuspend(w, c)) => Running(s, w) && Cur(s, w) == f && s.fibers[f].wake == None
    case Code(DelEvent(a, k)) =>
      k in s.regs && Carries(s.regs[k].task) == Some(f) && f in s.fibers && s.fibers[f].state.HOLD? && s.fibers[f].wake.Some?
    case _ => false
  }

  ghost predicate Same(fibers: map<FiberId, Fiber>, fibers': map<FiberId, Fiber>, f: FiberId) {
    Orphan(fibers', f) ==> Orphan(fibers, f)
  }

  lemma OneKeeps(fibers: map<FiberId, Fiber>, g: FiberId, gb: Fiber, f: FiberId)
    requires (gb.state.HOLD? && gb.wake == None) ==> Orphan(fibers, g)
    ensures Same(fibers, fibers[g := gb], f)
  {
  }

  lemma WakeKeeps(fibers: map<FiberId, Fiber>, t: Task, tk: Ticket, f: FiberId)
    ensures Same(fibers, SetWake(fibers, t, Some(tk)), f)
  {
  }

  // ---------------------------------------------------------------- user code

  lemma DeleteOrphans(s: State, k: Key, f: FiberId)
    requires k in s.regs
    ensures var fibers := Unregister(s, k).fibers;
            Orphan(fibers, f) <==> Orphan(s.fibers, f) || (Carries(s.regs[k].task) == Some(f) && f in s.fibers && s.fibers[f].state.HOLD?)
  {
    assert Unregister(s, k).fibers == SetWake(s.fibers, s.regs[k].task, None);
  }

  lemma HoldOrphans(s: State, w: WorkerId, f: FiberId)
    requires Running(s, w)
    ensures var fibers := EndHold(s, w).fibers;
            Orphan(fibers, f) <==> if f == Cur(s, w) then s.fibers[f].wake == None else Orphan(s.fibers, f)
  {
    var g := Cur(s, w);
    assert EndHold(s, w).fibers == s.fibers[g := EndHold(s, w).fibers[g]];
  }

  lemma ReadyKeeps(s: State, w: WorkerId, f: FiberId)
    requires Running(s, w)
    ensures Same(s.fibers, Push(EndHold(s, w), Wake(Cur(s, w)), None).fibers, f)
  {
    var g, s1 := Cur(s, w), EndHold(s, w);
    HoldOrphans(s, w, f);
    assert Push(s1, Wake(g), None).fibers == SetWake(s1.fibers, Wake(g), Some(Ticket(s1.nextTicket, Wake(g))));
  }

  lemma FinishKeeps(s: State, w: WorkerId, threw: bool, f: FiberId)
    requires Running(s, w)
    ensures Same(s.fibers, EndFinish(s, w, threw).fibers, f)
  {
    var g := Cur(s, w);
    OneKeeps(s.fibers, g, EndFinish(s, w, threw).fibers[g], f);
  }

  lemma SpawnKeeps(s: State, n: nat, pin: Option<WorkerId>, f: FiberId)
    ensures Same(s.fibers, Spawn(s, n, pin).fibers, f)
  {
    var g := s.nextFiber;
    var f1 := s.fibers[g := Fiber(INIT, Some(User(n)), Free, None, None, None)];
    OneKeeps(s.fibers, g, f1[g], f);
    WakeKeeps(f1, Wake(g), Ticket(s.nextTicket, Wake(g)), f);
  }

  predicate Suspends(u: UserStep) {
    u.DelEvent? || u.YieldHold?
  }

  lemma UserKeeps(s: State, u: UserStep, f: FiberId)
    requires UserEnabled(s, u) && !Suspends(u)
    ensures Same(s.fibers, UserApply(s, u).fibers, f)
  {
    var n := s.nextTicket;
    match u
    case ScheduleFiber(a, g, pin) => WakeKeeps(s.fibers, Wake(g), Ticket(n, Wake(g)), f);
    case ScheduleNew(a, i, pin) => SpawnKeeps(s, i, pin, f);
    case AddEventFiber(w, k) => WakeKeeps(s.fibers, Wake(Cur(s, w)), Ticket(n, Wake(Cur(s, w))), f);
    case Sleep(w) => WakeKeeps(s.fibers, Invoke(Resume(Cur(s, w))), Ticket(n, Invoke(Resume(Cur(s, w)))), f);
    case YieldReady(w) => ReadyKeeps(s, w, f);
    case Finish(w, threw) => FinishKeeps(s, w, threw, f);
    case _ =>
  }

  // ---------------------------------------------------------------- hooked calls

  lemma ProgKeeps(fibers: map<FiberId, Fiber>, g: FiberId, p: Prog, f: FiberId)
    requires g in fibers
    ensures Same(fibers, fibers[g := fibers[g].(prog := p)], f)
  {
  }

  lemma RegisterKeeps(s: State, g: FiberId, d: CallId, f: FiberId)
    requires g in s.fibers && d in s.calls
    ensures Same(s.fibers, RegisterCall(s, g, d).fibers, f)
  {
    var s1 := Register(s, s.calls[d].key, Wake(g));
    WakeKeeps(s.fibers, Wake(g), Ticket(s.nextTicket, Wake(g)), f);
    ProgKeeps(s1.fibers, g, InCall(d, Suspending), f);
    assert RegisterCall(s, g, d).fibers == s1.fibers[g := s1.fibers[g].(prog := InCall(d, Suspending))];
  }

  lemma ResumeKeeps(s: State, g: FiberId, h: FiberId, f: FiberId)
    requires g in s.fibers && h in s.fibers
    ensures Same(s.fibers, FinishResume(s, g, h).fibers, f)
  {
    ResumeFibers(s, g, h);
  }

  lemma EndKeeps(s: State, g: FiberId, d: CallId, timedOut: bool, f: FiberId)
    requires g in s.fibers && d in s.calls
    ensures Same(s.fibers, EndCall(s, g, d, timedOut).fibers, f)
  {
    ProgKeeps(s.fibers, g, Free, f);
    assert EndCall(s, g, d, timedOut).fibers == s.fibers[g := s.fibers[g].(prog := Free)];
  }

  lemma CheckKeeps(s: State, g: FiberId, d: CallId, f: FiberId)
    requires g in s.fibers && d in s.calls
    ensures Same(s.fibers, CheckCall(s, g, d).fibers, f)
  {
    EndKeeps(s, g, d, true, f);
    EndKeeps(s, g, d, false, f);
    ProgOnly(s, g, InCall(d, Trying));
    ProgKeeps(s.fibers, g, InCall(d, Trying), f);
  }

  lemma BeginKeeps(s: State, g: FiberId, k: Key, limited: bool, retries: bool, f: FiberId)
    requires g in s.fibers
    ensures Same(s.fibers, BeginCall(s, g, k, limited, retries).fibers, f)
  {
    ProgKeeps(s.fibers, g, InCall(s.nextCall, Trying), f);
    assert BeginCall(s, g, k, limited, retries).fibers == s.fibers[g := s.fibers[g].(prog := InCall(s.nextCall, Trying))];
  }

  lemma CancelKeeps(s: State, g: FiberId, d: CallId, f: FiberId)
    requires g in s.fibers && d in s.calls
    ensures Same(s.fibers, CancelCall(s, g, d).fibers, f)
  {
    var s1, k := SetProg(s, g, Free), s.calls[d].key;
    ProgOnly(s, g, Free);
    ProgCalls(s, g, Free);
    ProgKeeps(s.fibers, g, Free, f);
    if k in s.regs {
      assert CancelCall(s, g, d) == Fire(s1, k);
      FireFibers(s1, k);
    } else {
      assert CancelCall(s, g, d) == s1;
    }
  }

  lemma CallKeeps(s: State, h: HookStep, f: FiberId)
    requires HookEnabled(s, h)
    requires h.CallBlocks? || h.CallRegisterFails? || h.CallDisarm? || h.CallArm? || h.TimeoutCheck?
    ensures Same(s.fibers, HookApply(s, h).fibers, f)
  {
    var g := Cur(s, h.w);
    match h
    case CallBlocks(w, d) => ProgOnly(s, g, InCall(d, Arming)); ProgKeeps(s.fibers, g, InCall(d, Arming), f);
    case CallArm(w, d) => ArmFibers(s, g, d); ProgKeeps(s.fibers, g, InCall(d, Registering), f);
    case CallRegisterFails(w, d) => ProgOnly(s, g, InCall(d, Failing)); ProgKeeps(s.fibers, g, InCall(d, Failing), f);
    case CallDisarm(w, d) =>
      ProgOnly(CancelCallTimer(s, d), g, InCall(d, Checking));
      ProgKeeps(s.fibers, g, InCall(d, Checking), f);
    case TimeoutCheck(w, d) => ExpireFibers(s, g, d);
  }

  lemma HookKeepsOrphans(s: State, h: HookStep, f: FiberId)
    requires HookEnabled(s, h) && !h.CallSuspend?
    ensures Same(s.fibers, HookApply(s, h).fibers, f)
  {
    var g := Cur(s, h.w);
    match h
    case CallBegin(w, k, limited, retries) => BeginKeeps(s, g, k, limited, retries, f);
    case CallReturns(w, d) => EndKeeps(s, g, d, false, f);
    case CallRegister(w, d) => RegisterKeeps(s, g, d, f);
    case CallFail(w, d) => EndKeeps(CancelCallTimer(s, d), g, d, false, f);
    case CallCheck(w, d) => CheckKeeps(s, g, d, f);
    case ResumeSleeper(w, x) => ResumeKeeps(s, g, x, f);
    case TimeoutCancel(w, d) => CancelKeeps(s, g, d, f);
    case _ => CallKeeps(s, h, f);
  }

  // ---------------------------------------------------------------- the worker loop

  lemma TakeUpKeeps(s: State, w: WorkerId, f: FiberId)
    requires LoopEnabled(s, TakeUp(w))
    ensures Same(s.fibers, TakeUpHand(s, w).fibers, f)
  {
    var t := s.workers[w].pc.ticket.task;
    if t.Invoke? {
      HostKeeps(s, w, f);
    } else if s.fibers[t.fiber].state.TERM? || s.fibers[t.fiber].state.EXCEPT? {
      DropKeeps(s, w, f);
    } else {
      SwapKeeps(s, w, f);
    }
  }

  lemma HostKeeps(s: State, w: WorkerId, f: FiberId)
    requires LoopEnabled(s, TakeUp(w)) && s.workers[w].pc.ticket.task.Invoke?
    ensures Same(s.fibers, SwapInCallback(s, w).fibers, f)
  {
    var g := Host(s, w);
    OneKeeps(s.fibers, g, SwapInCallback(s, w).fibers[g], f);
  }

  lemma DropKeeps(s: State, w: WorkerId, f: FiberId)
    requires LoopEnabled(s, TakeUp(w)) && s.workers[w].pc.ticket.task.Wake?
    requires var g := s.workers[w].pc.ticket.task.fiber; s.fibers[g].state.TERM? || s.fibers[g].state.EXCEPT?
    ensures Same(s.fibers, Drop(s, w).fibers, f)
  {
    var g := s.workers[w].pc.ticket.task.fiber;
    OneKeeps(s.fibers, g, s.fibers[g].(wake := None), f);
  }

  lemma SwapKeeps(s: State, w: WorkerId, f: FiberId)
    requires LoopEnabled(s, TakeUp(w)) && s.workers[w].pc.ticket.task.Wake?
    ensures Same(s.fibers, SwapIn(s, w).fibers, f)
  {
    var g := s.workers[w].pc.ticket.task.fiber;
    OneKeeps(s.fibers, g, SwapIn(s, w).fibers[g], f);
  }

  lemma LoopKeepsOrphans(s: State, l: LoopStep, f: FiberId)
    requires LoopEnabled(s, l)
    ensures Same(s.fibers, LoopApply(s, l).fibers, f)
  {
    if l.TakeUp? {
      TakeUpKeeps(s, l.w, f);
    } else {
      LoopFibers(s, l);
    }
  }

  lemma MakesOrphan(s: State, st: Step, f: FiberId)
    requires Enabled(s, st) && Orphans(s, st, f)
    ensures Orphan(Apply(s, st).fibers, f)
  {
    match st
    case Code(YieldHold(w)) => HoldOrphans(s, w, f);
    case Hook(CallSuspend(w, c)) => HoldOrphans(s, w, f);
    case Code(DelEvent(a, k)) => DeleteOrphans(s, k, f);
  }

  /** A fiber becomes an orphan exactly by suspending itself without a wake outstanding, or when
      delEvent deletes the registration it waits for. */
  lemma OrphanedIff(s: State, st: Step, f: FiberId)
    requires Reachable(s) && Enabled(s, st) && !Orphan(s.fibers, f)
    ensures Orphan(Apply(s, st).fibers, f) <==> Orphans(s, st, f)
  {
    if Orphans(s, st, f) {
      MakesOrphan(s, st, f);
    } else {
      match st
      case Code(YieldHold(w)) => HoldOrphans(s, w, f);
      case Code(DelEvent(a, k)) => DeleteOrphans(s, k, f);
      case Code(u) => UserKeeps(s, u, f);
      case Hook(CallSuspend(w, c)) => HoldOrphans(s, w, f);
      case Hook(h) => HookKeepsOrphans(s, h, f);
      case Loop(l) => LoopKeepsOrphans(s, l, f);
    }
  }
}
