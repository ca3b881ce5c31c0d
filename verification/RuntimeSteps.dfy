/**
  Every step keeps the invariant, and so does every run.
*/
module RuntimeSteps {
  import opened Prelude
  import opened Runtime
  import opened RuntimeInvariant
  import opened RuntimeFacts
  import opened RuntimeOperations
  import opened RuntimeWorkers
  import opened RuntimeFibers
  import opened RuntimeCalls

  lemma ActsActing(s: State, a: Actor)
    requires Acts(s, a)
    ensures Acting(s)
  {
    if a.On? {
      assert !NoWork(s.workers[a.worker]);
    }
  }

  lemma CurFacts(s: State, w: WorkerId)
    requires FibersInv(s.workers, s.fibers, s.nextFiber, s.place) && Running(s, w)
    ensures s.fibers[Cur(s, w)].state == EXEC(w) && Acting(s)
  {
    assert !NoWork(s.workers[w]);
  }

  lemma YieldReadyOk(s: State, w: WorkerId)
    requires Inv(s) && RunsProg(s, w, Free) && Wakeable(s.fibers, Wake(Cur(s, w)))
    ensures Inv(Push(EndHold(s, w), Wake(Cur(s, w)), None))
  {
    var s', f := EndHold(s, w), Cur(s, w);
    EndHoldOk(s, w);
    YieldReadyWakes(s, w);
    BusyNotAllDone(s, w);
    PushOkNotDone(s', Wake(f), None);
  }

  lemma YieldReadyWakes(s: State, w: WorkerId)
    requires FibersInv(s.workers, s.fibers, s.nextFiber, s.place) && RunsProg(s, w, Free) && Wakeable(s.fibers, Wake(Cur(s, w)))
    ensures Wakeable(EndHold(s, w).fibers, Wake(Cur(s, w)))
  {
    assert s.workers[w].pc.hosted || s.fibers[Cur(s, w)].spareOf == None;
  }

  ghost predicate NotAllDone(workers: map<WorkerId, Worker>) {
    exists v :: v in workers && !workers[v].idleDone
  }

  lemma BusyNotAllDone(s: State, w: WorkerId)
    requires CountsInv(s) && Running(s, w)
    ensures NotAllDone(EndHold(s, w).workers)
  {
    assert !NoWork(s.workers[w]);
    var v :| v in s.workers && !s.workers[v].idleDone;
    assert !EndHold(s, w).workers[v].idleDone;
  }

  /** As PushOk, for the step in which the worker itself schedules the fiber. */
  lemma PushOkNotDone(s: State, t: Task, pin: Option<WorkerId>)
    requires Inv(s) && Wakeable(s.fibers, t) && NotAllDone(s.workers)
    requires t.Wake?
    ensures Inv(Push(s, t, pin))
  {
    var tk := Ticket(s.nextTicket, t);
    IssuedNew(s.place, tk, Queued);
    PushPlaces(s, t, pin);
    NewFibers(s.workers, s.fibers, s.nextFiber, s.place, tk, Queued);
    NewCalls(s.calls, s.fibers, s.timers, s.place, s.nextTimer, s.nextCall, tk, Queued);
    PushCounts(s, t, pin);
  }

  lemma PushCounts(s: State, t: Task, pin: Option<WorkerId>)
    requires CountsInv(s) && NotAllDone(s.workers)
    ensures CountsInv(Push(s, t, pin))
  {
  }

  lemma StopOkStep(s: State)
    requires Inv(s)
    ensures Inv(s.(stopping := true))
  {
  }

  lemma UserSchedules(s: State, u: UserStep)
    requires Inv(s) && UserEnabled(s, u) && (u.ScheduleCallback? || u.ScheduleFiber? || u.ScheduleNew?)
    ensures Inv(UserApply(s, u))
  {
    ActsActing(s, u.a);
    match u
    case ScheduleCallback(a, n, pin) => PushOk(s, Invoke(User(n)), pin);
    case ScheduleFiber(a, f, pin) => PushOk(s, Wake(f), pin);
    case ScheduleNew(a, n, pin) => SpawnOk(s, n, pin);
  }

  lemma SleepOk(s: State, w: WorkerId)
    requires Inv(s) && UserEnabled(s, Sleep(w))
    ensures Inv(Arm(s, Invoke(Resume(Cur(s, w))), false))
  {
    CurFacts(s, w);
    ArmOk(s, Invoke(Resume(Cur(s, w))), false);
  }

  lemma AddTimerOk(s: State, a: Actor, n: nat, recurring: bool)
    requires Inv(s) && Acts(s, a)
    ensures Inv(Arm(s, Invoke(User(n)), recurring))
  {
    ActsActing(s, a);
    ArmOk(s, Invoke(User(n)), recurring);
  }

  lemma CancelTimerOfOk(s: State, t: TimerId)
    requires Inv(s) && t in s.timers && s.timers[t].ticket.task.Invoke? && s.timers[t].ticket.task.cb.User?
    ensures Inv(Disarm(s, t))
  {
    DisarmOk(s, t);
  }

  lemma UserTimers(s: State, u: UserStep)
    requires Inv(s) && UserEnabled(s, u) && (u.AddTimer? || u.CancelTimer? || u.Sleep?)
    ensures Inv(UserApply(s, u))
  {
    if u.CancelTimer? {
      CancelTimerOfOk(s, u.t);
    } else {
      UserArms(s, u);
    }
  }

  lemma UserArms(s: State, u: UserStep)
    requires Inv(s) && UserEnabled(s, u) && (u.AddTimer? || u.Sleep?)
    ensures Inv(UserApply(s, u))
  {
    match u
    case AddTimer(a, n, recurring) => AddTimerOk(s, a, n, recurring);
    case Sleep(w) => SleepOk(s, w);
  }

  lemma UserAdds(s: State, u: UserStep)
    requires Inv(s) && UserEnabled(s, u) && (u.AddEventCallback? || u.AddEventFiber?)
    ensures Inv(UserApply(s, u))
  {
    match u
    case AddEventCallback(w, k, n) => AddEventOk(s, w, k, Invoke(User(n)));
    case AddEventFiber(w, k) => AddEventOk(s, w, k, Wake(Cur(s, w)));
  }

  lemma AddEventOk(s: State, w: WorkerId, k: Key, t: Task)
    requires Inv(s) && Running(s, w) && k !in s.regs && Wakeable(s.fibers, t) && (t.Invoke? ==> t.cb.User?)
    ensures Inv(Register(s, k, t))
  {
    CurFacts(s, w);
    RegisterOk(s, k, t);
  }

  lemma UserEvents(s: State, u: UserStep)
    requires Inv(s) && UserEnabled(s, u) && (u.DelEvent? || u.CancelEvent? || u.Stop?)
    ensures Inv(UserApply(s, u))
  {
    match u
    case DelEvent(a, k) => UnregisterOk(s, k);
    case CancelEvent(a, k) => FireOk(s, k);
    case Stop => StopOkStep(s);
  }

  lemma HoldOk(s: State, w: WorkerId)
    requires Inv(s) && RunsProg(s, w, Free)
    ensures Inv(EndHold(s, w))
  {
    EndHoldOk(s, w);
  }

  lemma UserEnds(s: State, u: UserStep)
    requires Inv(s) && UserEnabled(s, u)
    requires u.YieldHold? || u.YieldReady? || u.Finish?
    ensures Inv(UserApply(s, u))
  {
    if u.Finish? {
      FinishOk(s, u.w, u.threw);
    } else {
      UserYields(s, u);
    }
  }

  lemma UserYields(s: State, u: UserStep)
    requires Inv(s) && UserEnabled(s, u) && (u.YieldHold? || u.YieldReady?)
    ensures Inv(UserApply(s, u))
  {
    match u
    case YieldHold(w) => HoldOk(s, w);
    case YieldReady(w) => YieldReadyOk(s, w);
  }

  lemma ArmCallOk(s: State, w: WorkerId, c: CallId)
    requires Inv(s) && RunsCall(s, w, c, Arming)
    ensures Inv(ArmCall(s, Cur(s, w), c))
  {
    if s.calls[c].limited {
      ArmLimitedOk(s, w, c);
    } else {
      ArmUnlimitedOk(s, w, c);
    }
  }

  lemma ExpireOk(s: State, w: WorkerId, c: CallId)
    requires Inv(s) && RunsProg(s, w, Expiring(c))
    ensures Inv(ExpireCall(s, Cur(s, w), c))
  {
    if c in s.calls && s.calls[c].alive && !s.calls[c].flag {
      ExpireFlagOk(s, w, c);
    } else {
      ExpireIgnoreOk(s, w, c);
    }
  }

  lemma ReturnsOk(s: State, w: WorkerId, c: CallId)
    requires Inv(s) && RunsCall(s, w, c, Trying)
    ensures Inv(EndCall(s, Cur(s, w), c, false))
  {
    NoTimerAt(s, w, c, Trying);
    EndOk(s, w, c, Trying, false);
  }

  lemma BlocksOk(s: State, w: WorkerId, c: CallId)
    requires Inv(s) && RunsCall(s, w, c, Trying)
    ensures Inv(SetProg(s, Cur(s, w), InCall(c, Arming)))
  {
    NoTimerAt(s, w, c, Trying);
    StepOn(s, w, c, Trying, Arming);
  }

  lemma HookTries(s: State, h: HookStep)
    requires Inv(s) && HookEnabled(s, h) && (h.CallBegin? || h.CallReturns? || h.CallBlocks?)
    ensures Inv(HookApply(s, h))
  {
    match h
    case CallBegin(w, k, limited, retries) => BeginOk(s, w, k, limited, retries);
    case CallReturns(w, c) => ReturnsOk(s, w, c);
    case CallBlocks(w, c) => BlocksOk(s, w, c);
  }

  lemma RegisterFailsOk(s: State, w: WorkerId, c: CallId)
    requires Inv(s) && RunsCall(s, w, c, Registering)
    ensures Inv(SetProg(s, Cur(s, w), InCall(c, Failing)))
  {
    StepOn(s, w, c, Registering, Failing);
  }

  lemma SuspendOk(s: State, w: WorkerId, c: CallId)
    requires Inv(s) && RunsCall(s, w, c, Suspending)
    ensures Inv(EndHold(s, w))
  {
    EndHoldOk(s, w);
  }

  lemma HookWaits(s: State, h: HookStep)
    requires Inv(s) && HookEnabled(s, h)
    requires h.CallArm? || h.CallRegister? || h.CallRegisterFails? || h.CallSuspend?
    ensures Inv(HookApply(s, h))
  {
    if h.CallArm? {
      ArmCallOk(s, h.w, h.c);
    } else {
      HookAdds(s, h);
    }
  }

  lemma HookAdds(s: State, h: HookStep)
    requires Inv(s) && HookEnabled(s, h) && (h.CallRegister? || h.CallRegisterFails? || h.CallSuspend?)
    ensures Inv(HookApply(s, h))
  {
    match h
    case CallRegister(w, c) => RegisterCallOk(s, w, c);
    case CallRegisterFails(w, c) => RegisterFailsOk(s, w, c);
    case CallSuspend(w, c) => SuspendOk(s, w, c);
  }

  lemma HookLeaves(s: State, h: HookStep)
    requires Inv(s) && HookEnabled(s, h) && (h.CallFail? || h.CallDisarm? || h.CallCheck?)
    ensures Inv(HookApply(s, h))
  {
    match h
    case CallFail(w, c) => FailCallOk(s, w, c);
    case CallDisarm(w, c) => DisarmCallOk(s, w, c);
    case CallCheck(w, c) => CheckCallOk(s, w, c);
  }

  lemma HookRings(s: State, h: HookStep)
    requires Inv(s) && HookEnabled(s, h) && (h.ResumeSleeper? || h.TimeoutCheck? || h.TimeoutCancel?)
    ensures Inv(HookApply(s, h))
  {
    match h
    case ResumeSleeper(w, f) => ResumeOk(s, w, f);
    case TimeoutCheck(w, c) => ExpireOk(s, w, c);
    case TimeoutCancel(w, c) => CancelCallOk(s, w, c);
  }

  lemma TakeFirstOk(s: State, w: WorkerId)
    requires Inv(s) && w in s.workers && s.workers[w].pc.Head?
    ensures Inv(TakeFirst(s, w))
  {
    var i := Scan(s.queue, w, s.fibers);
    if i < |s.queue| {
      TakeOk(s, w, i);
    } else {
      PcOk(s, w, NoTask, s.idle);
    }
  }

  /** A change of pc among Head, NoTask, Idling, Polling({}) and Left that the idle state
      of the worker allows. */
  lemma PcOk(s: State, w: WorkerId, pc: Pc, idle: int)
    requires Inv(s) && w in s.workers && !IsBusy(s.workers[w])
    requires pc.Head? || pc.NoTask? || pc.Idling? || pc == Polling({}) || pc.Left?
    requires s.workers[w].pc.Polling? ==> s.workers[w].pc.cbs == {}
    requires s.workers[w].idleDone ==> !pc.Idling? && !pc.Polling?
    requires pc.Left? ==> s.workers[w].idleDone
    requires idle == s.idle - (if IsIdling(s.workers[w]) then 1 else 0) + (if pc.Idling? || pc.Polling? then 1 else 0)
    ensures Inv(Shift(s, w, s.workers[w].(pc := pc), idle))
  {
    var wk := s.workers[w].(pc := pc);
    MoveStop(s.queue, s.regs, s.timers, s.workers, s.stopping, w, wk);
    MoveOk(s, w, wk, idle);
  }

  lemma TakeUpOk(s: State, w: WorkerId)
    requires Inv(s) && LoopEnabled(s, TakeUp(w))
    ensures Inv(TakeUpHand(s, w))
  {
    var t := s.workers[w].pc.ticket.task;
    if t.Invoke? {
      HostOk(s, w);
    } else if s.fibers[t.fiber].state.TERM? || s.fibers[t.fiber].state.EXCEPT? {
      DropOk(s, w);
    } else {
      SwapInOk(s, w);
    }
  }

  lemma IdleNotDone(s: State, w: WorkerId)
    requires CountsInv(s) && w in s.workers && IsIdling(s.workers[w])
    ensures !s.workers[w].idleDone
  {
  }

  lemma CheckTrueOk(s: State, w: WorkerId)
    requires Inv(s) && w in s.workers && s.workers[w].pc.Idling? && MayStop(s)
    ensures Inv(Shift(s, w, s.workers[w].(pc := Head, idleDone := true), s.idle - 1))
  {
    var wk := s.workers[w].(pc := Head, idleDone := true);
    LastCheckStop(s, w, wk);
    MoveOk(s, w, wk, s.idle - 1);
  }

  lemma CheckStoppingOk(s: State, w: WorkerId)
    requires Inv(s) && w in s.workers && s.workers[w].pc.Idling?
    ensures Inv(Check(s, w))
  {
    if MayStop(s) {
      CheckTrueOk(s, w);
    } else {
      IdleNotDone(s, w);
      PcOk(s, w, Polling({}), s.idle);
    }
  }

  lemma CollectOk(s: State, w: WorkerId, t: TimerId)
    requires Inv(s) && w in s.workers && s.workers[w].pc.Polling? && t in s.timers
    ensures Inv(Collect(s, w, t))
  {
    if s.timers[t].recurring {
      CollectCopyOk(s, w, t);
    } else {
      CollectOnceOk(s, w, t);
    }
  }

  lemma LoopMoves(s: State, l: LoopStep)
    requires Inv(s) && LoopEnabled(s, l) && (l.EnterIdle? || l.Leave? || l.LeaveIdle?)
    ensures Inv(LoopApply(s, l))
  {
    match l
    case EnterIdle(w) => PcOk(s, w, Idling, s.idle + 1);
    case Leave(w) => PcOk(s, w, Left, s.idle);
    case LeaveIdle(w) => PcOk(s, w, Head, s.idle - 1);
  }

  lemma LoopWorks(s: State, l: LoopStep)
    requires Inv(s) && LoopEnabled(s, l) && !(l.EnterIdle? || l.Leave? || l.LeaveIdle?)
    ensures Inv(LoopApply(s, l))
  {
    match l
    case Dequeue(w) => TakeFirstOk(s, w);
    case TakeUp(w) => TakeUpOk(s, w);
    case CheckStopping(w) => CheckStoppingOk(s, w);
    case CollectTimer(w, t) => CollectOk(s, w, t);
    case SubmitCallback(w, tk) => SubmitOk(s, w, tk);
    case Dispatch(w, k) => FireOk(s, k);
  }

  lemma UserKeeps(s: State, u: UserStep)
    requires Inv(s) && UserEnabled(s, u)
    ensures Inv(UserApply(s, u))
  {
    if u.YieldHold? || u.YieldReady? || u.Finish? {
      UserEnds(s, u);
    } else if u.AddEventCallback? || u.AddEventFiber? {
      UserAdds(s, u);
    } else if u.DelEvent? || u.CancelEvent? || u.Stop? {
      UserEvents(s, u);
    } else if u.AddTimer? || u.CancelTimer? || u.Sleep? {
      UserTimers(s, u);
    } else {
      UserSchedules(s, u);
    }
  }

  lemma HookKeeps(s: State, h: HookStep)
    requires Inv(s) && HookEnabled(s, h)
    ensures Inv(HookApply(s, h))
  {
    if h.CallBegin? || h.CallReturns? || h.CallBlocks? {
      HookTries(s, h);
    } else if h.CallFail? || h.CallDisarm? || h.CallCheck? {
      HookLeaves(s, h);
    } else if h.ResumeSleeper? || h.TimeoutCheck? || h.TimeoutCancel? {
      HookRings(s, h);
    } else {
      HookWaits(s, h);
    }
  }

  lemma LoopKeeps(s: State, l: LoopStep)
    requires Inv(s) && LoopEnabled(s, l)
    ensures Inv(LoopApply(s, l))
  {
    if l.EnterIdle? || l.Leave? || l.LeaveIdle? {
      LoopMoves(s, l);
    } else {
      LoopWorks(s, l);
    }
  }

  lemma StepKeeps(s: State, st: Step)
    requires Inv(s) && Enabled(s, st)
    ensures Inv(Apply(s, st))
  {
    match st
    case Code(u) => UserKeeps(s, u);
    case Hook(h) => HookKeeps(s, h);
    case Loop(l) => LoopKeeps(s, l);
  }

  lemma InitKeeps(ws: set<WorkerId>)
    ensures Inv(Init(ws))
  {
    var s := Init(ws);
    assert Busy(s.workers) == {} && InIdle(s.workers) == {};
    if s.workers != map[] {
      var w :| w in s.workers;
      assert !s.workers[w].idleDone;
    }
  }

  /** The invariant holds after every run. */
  lemma {:induction false} RunKeeps(s: State, steps: seq<Step>)
    requires Inv(s) && Valid(s, steps)
    ensures Inv(After(s, steps))
    decreases |steps|
  {
    if steps != [] {
      StepKeeps(s, steps[0]);
      RunKeeps(Apply(s, steps[0]), steps[1..]);
    }
  }

  ghost predicate Reachable(s: State) {
    exists ws: set<WorkerId>, steps: seq<Step> :: Valid(Init(ws), steps) && s == After(Init(ws), steps)
  }

  lemma ReachableInv(s: State)
    requires Reachable(s)
    ensures Inv(s)
  {
    var ws: set<WorkerId>, steps: seq<Step> :| Valid(Init(ws), steps) && s == After(Init(ws), steps);
    InitKeeps(ws);
    RunKeeps(Init(ws), steps);
  }

  lemma {:induction false} RunAppend(s: State, steps: seq<Step>, st: Step)
    requires Valid(s, steps) && Enabled(After(s, steps), st)
    ensures Valid(s, steps + [st]) && After(s, steps + [st]) == Apply(After(s, steps), st)
    decreases |steps|
  {
    if steps == [] {
      assert steps + [st] == [st];
    } else {
      RunAppend(Apply(s, steps[0]), steps[1..], st);
      assert (steps + [st])[1..] == steps[1..] + [st];
    }
  }

  lemma ReachableStep(s: State, st: Step)
    requires Reachable(s) && Enabled(s, st)
    ensures Reachable(Apply(s, st))
  {
    var ws: set<WorkerId>, steps: seq<Step> :| Valid(Init(ws), steps) && s == After(Init(ws), steps);
    RunAppend(Init(ws), steps, st);
  }

  lemma {:induction false} ReachableRun(s: State, steps: seq<Step>)
    requires Reachable(s) && Valid(s, steps)
    ensures Reachable(After(s, steps))
    decreases |steps|
  {
    if steps != [] {
      ReachableStep(s, steps[0]);
      ReachableRun(Apply(s, steps[0]), steps[1..]);
    }
  }
}
