/**
  Concrete runs of the runtime, step by step: how a time-out gets lost, how one hits the next
  call on the same descriptor, and what happens to a callback that finishes too early.
*/
module RuntimeRuns {
  import opened Prelude
  import opened Runtime
  import opened RuntimeSteps
  import opened RuntimeTheorems
  import opened RuntimeCancels
  import opened RuntimeTimeouts

  /** A state without its thread counts and its history. */
  datatype View = View(workers: map<WorkerId, Worker>, fibers: map<FiberId, Fiber>, calls: map<CallId, CallInfo>,
                       queue: seq<Entry>, regs: map<Key, Ticket>, timers: map<TimerId, Timer>,
                       nextTicket: nat, nextFiber: nat, nextTimer: nat, nextCall: nat)

  function ViewOf(s: State): View {
    View(s.workers, s.fibers, s.calls, s.queue, s.regs, s.timers, s.nextTicket, s.nextFiber, s.nextTimer, s.nextCall)
  }

  ghost predicate Shows(s: State, v: View) {
    Reachable(s) && ViewOf(s) == v
  }

  lemma Advance(s: State, st: Step, v: View) returns (s': State)
    requires Reachable(s) && Enabled(s, st) && ViewOf(Apply(s, st)) == v
    ensures Shows(s', v) && s' == Apply(s, st)
  {
    s' := Apply(s, st);
    ReachableStep(s, st);
  }

  lemma RegisterView(s: State, f: FiberId, c: CallId, v: View, tk: Ticket)
    requires ViewOf(s) == v && f in v.fibers && c in v.calls && tk == Ticket(v.nextTicket, Wake(f))
    ensures ViewOf(RegisterCall(s, f, c)) == AfterAdd(v, f, c, tk)
  {
  }

  function AfterAdd(v: View, f: FiberId, c: CallId, tk: Ticket): View
    requires f in v.fibers && c in v.calls
  {
    v.(fibers := v.fibers[f := v.fibers[f].(prog := InCall(c, Suspending), wake := Some(tk))],
       calls := v.calls[c := v.calls[c].(ticket := Some(tk), attempts := v.calls[c].attempts + 1)],
       regs := v.regs[v.calls[c].key := tk], nextTicket := v.nextTicket + 1)
  }

  lemma HoldView(s: State, w: WorkerId, v: View)
    requires Running(s, w) && ViewOf(s) == v && !v.workers[w].pc.hosted
    ensures var f := v.workers[w].pc.fiber;
            ViewOf(EndHold(s, w)) == v.(fibers := v.fibers[f := v.fibers[f].(state := HOLD)],
                                        workers := v.workers[w := v.workers[w].(pc := Head)])
  {
  }

  lemma ExpireView(s: State, g: FiberId, c: CallId, v: View)
    requires ViewOf(s) == v && g in v.fibers && c in v.calls && v.calls[c].alive && !v.calls[c].flag
    ensures ViewOf(ExpireCall(s, g, c)) == PassedCheck(v, g, c)
  {
    var s1 := s.(calls := s.calls[c := s.calls[c].(flag := true)]);
    assert ExpireCall(s, g, c) == SetProg(s1, g, Cancelling(c));
  }

  function PassedCheck(v: View, g: FiberId, c: CallId): View
    requires g in v.fibers && c in v.calls
  {
    v.(fibers := v.fibers[g := v.fibers[g].(prog := Cancelling(c))], calls := v.calls[c := v.calls[c].(flag := true)])
  }

  const ConnKey: Key := Key(7, READ)
  const Spawned: Ticket := Ticket(0, Wake(0))
  const Ring: Ticket := Ticket(1, Invoke(Timeout(0)))

  function Bare(pc: Pc): Worker {
    Worker(pc, None, false)
  }

  /** Fiber 0, and the fiber in which worker 1 runs the time-out lambda of call 0. */
  function Caller(state: FiberState, prog: Prog, wake: Option<Ticket>): Fiber {
    Fiber(state, Some(User(0)), prog, None, wake, None)
  }

  function Lambda(prog: Prog): Fiber {
    Fiber(EXEC(1), Some(Timeout(0)), prog, Some(Ring), None, Some(1))
  }

  /** Call 0, with a time-out and with retries. */
  function Call(ticket: Option<Ticket>, fired: nat, attempts: nat, resumes: nat): CallInfo {
    CallInfo(0, ConnKey, true, true, Some(0), false, true, Some(Ring), ticket, fired, attempts, resumes, false)
  }

  // ---------------------------------------------------------------- up to the timer

  lemma FiberSpawned() returns (s: State)
    ensures Shows(s, View(map[0 := Bare(Head), 1 := Bare(Head)], map[0 := Caller(INIT, Free, Some(Spawned))], map[],
                          [Entry(Spawned, None)], map[], map[], 1, 1, 0, 0))
  {
    s := Init({0, 1});
    assert Valid(s, []) && After(s, []) == s;
    s := Advance(s, Code(ScheduleNew(Outside, 0, None)),
                 View(map[0 := Bare(Head), 1 := Bare(Head)], map[0 := Caller(INIT, Free, Some(Spawned))], map[],
                      [Entry(Spawned, None)], map[], map[], 1, 1, 0, 0));
  }

  lemma FiberTaken() returns (s: State)
    ensures Shows(s, View(map[0 := Bare(Hand(Spawned)), 1 := Bare(Head)], map[0 := Caller(INIT, Free, Some(Spawned))], map[],
                          [], map[], map[], 1, 1, 0, 0))
  {
    s := FiberSpawned();
    s := Advance(s, Loop(Dequeue(0)),
                 View(map[0 := Bare(Hand(Spawned)), 1 := Bare(Head)], map[0 := Caller(INIT, Free, Some(Spawned))], map[],
                      [], map[], map[], 1, 1, 0, 0));
  }

  lemma FiberRuns() returns (s: State)
    ensures Shows(s, View(map[0 := Bare(Run(0, false)), 1 := Bare(Head)], map[0 := Caller(EXEC(0), Free, None)], map[],
                          [], map[], map[], 1, 1, 0, 0))
  {
    s := FiberTaken();
    s := Advance(s, Loop(TakeUp(0)),
                 View(map[0 := Bare(Run(0, false)), 1 := Bare(Head)], map[0 := Caller(EXEC(0), Free, None)], map[],
                      [], map[], map[], 1, 1, 0, 0));
  }

  const NewCall: CallInfo := CallInfo(0, ConnKey, true, true, None, false, true, None, None, 0, 0, 0, false)

  lemma CallBegun() returns (s: State)
    ensures Shows(s, View(map[0 := Bare(Run(0, false)), 1 := Bare(Head)], map[0 := Caller(EXEC(0), InCall(0, Arming), None)],
                          map[0 := NewCall], [], map[], map[], 1, 1, 0, 1))
  {
    s := FiberRuns();
    s := Advance(s, Hook(CallBegin(0, ConnKey, true, true)),
                 View(map[0 := Bare(Run(0, false)), 1 := Bare(Head)], map[0 := Caller(EXEC(0), InCall(0, Trying), None)],
                      map[0 := NewCall], [], map[], map[], 1, 1, 0, 1));
    s := Advance(s, Hook(CallBlocks(0, 0)),
                 View(map[0 := Bare(Run(0, false)), 1 := Bare(Head)], map[0 := Caller(EXEC(0), InCall(0, Arming), None)],
                      map[0 := NewCall], [], map[], map[], 1, 1, 0, 1));
  }

  /** Fiber 0 has armed the timer of its call and is about to call addEvent. */
  function Armed(): View {
    View(map[0 := Bare(Run(0, false)), 1 := Bare(Head)], map[0 := Caller(EXEC(0), InCall(0, Registering), None)],
         map[0 := Call(None, 0, 0, 0)], [], map[], map[0 := Timer(Ring, false)], 2, 1, 1, 1)
  }

  lemma TimerArmed() returns (s: State)
    ensures Shows(s, Armed())
  {
    s := CallBegun();
    s := Advance(s, Hook(CallArm(0, 0)), Armed());
  }

  // ---------------------------------------------------------------- the timer expires

  /** Worker 1 is at the top of its loop, the timer is armed and the queue is empty. */
  predicate Before(v: View, w0: Worker, fb: Fiber, ci: CallInfo) {
    && v.workers == map[0 := w0, 1 := Bare(Head)] && v.fibers == map[0 := fb] && v.calls == map[0 := ci]
    && v.queue == [] && v.timers == map[0 := Timer(Ring, false)] && v.nextFiber == 1
  }

  function Worker1(v: View, w0: Worker, w1: Worker): View {
    v.(workers := map[0 := w0, 1 := w1])
  }

  lemma WorkerFindsNothing(s0: State, v: View, w0: Worker, fb: Fiber, ci: CallInfo) returns (s: State)
    requires Shows(s0, v) && Before(v, w0, fb, ci)
    ensures Shows(s, Worker1(v, w0, Bare(NoTask)))
  {
    s := Advance(s0, Loop(Dequeue(1)), Worker1(v, w0, Bare(NoTask)));
  }

  lemma WorkerIdles(s0: State, v: View, w0: Worker, fb: Fiber, ci: CallInfo) returns (s: State)
    requires Shows(s0, v) && Before(v, w0, fb, ci)
    ensures Shows(s, Worker1(v, w0, Bare(Idling)))
  {
    s := WorkerFindsNothing(s0, v, w0, fb, ci);
    s := Advance(s, Loop(EnterIdle(1)), Worker1(v, w0, Bare(Idling)));
  }

  lemma WorkerWaits(s0: State, v: View, w0: Worker, fb: Fiber, ci: CallInfo) returns (s: State)
    requires Shows(s0, v) && Before(v, w0, fb, ci)
    ensures Shows(s, Worker1(v, w0, Bare(Polling({}))))
  {
    s := WorkerIdles(s0, v, w0, fb, ci);
    assert 0 in s.timers;
    s := Advance(s, Loop(CheckStopping(1)), Worker1(v, w0, Bare(Polling({}))));
  }

  function Fired(v: View, ci: CallInfo): View {
    v.(timers := map[], calls := map[0 := ci.(fired := ci.fired + 1)])
  }

  lemma TimerCollected(s0: State, v: View, w0: Worker, fb: Fiber, ci: CallInfo) returns (s: State)
    requires Shows(s0, v) && Before(v, w0, fb, ci)
    ensures Shows(s, Worker1(Fired(v, ci), w0, Bare(Polling({Ring}))))
  {
    s := WorkerWaits(s0, v, w0, fb, ci);
    var none: set<Ticket> := {};
    assert none + {Ring} == {Ring};
    s := Advance(s, Loop(CollectTimer(1, 0)), Worker1(Fired(v, ci), w0, Bare(Polling({Ring}))));
  }

  lemma LambdaSubmitted(s0: State, v: View, w0: Worker, fb: Fiber, ci: CallInfo) returns (s: State)
    requires Shows(s0, v) && Before(v, w0, fb, ci)
    ensures Shows(s, Worker1(Fired(v, ci), w0, Bare(Polling({}))).(queue := [Entry(Ring, None)]))
  {
    s := TimerCollected(s0, v, w0, fb, ci);
    var none: set<Ticket> := {};
    assert {Ring} - {Ring} == none;
    s := Advance(s, Loop(SubmitCallback(1, Ring)), Worker1(Fired(v, ci), w0, Bare(Polling({}))).(queue := [Entry(Ring, None)]));
  }

  lemma LambdaQueued(s0: State, v: View, w0: Worker, fb: Fiber, ci: CallInfo) returns (s: State)
    requires Shows(s0, v) && Before(v, w0, fb, ci)
    ensures Shows(s, Worker1(Fired(v, ci), w0, Bare(Head)).(queue := [Entry(Ring, None)]))
  {
    s := LambdaSubmitted(s0, v, w0, fb, ci);
    s := Advance(s, Loop(LeaveIdle(1)), Worker1(Fired(v, ci), w0, Bare(Head)).(queue := [Entry(Ring, None)]));
  }

  lemma LambdaTaken(s0: State, v: View, w0: Worker, fb: Fiber, ci: CallInfo) returns (s: State)
    requires Shows(s0, v) && Before(v, w0, fb, ci)
    ensures Shows(s, Worker1(Fired(v, ci), w0, Bare(Hand(Ring))))
  {
    s := LambdaQueued(s0, v, w0, fb, ci);
    assert Scan(s.queue, 1, s.fibers) == 0;
    s := Advance(s, Loop(Dequeue(1)), Worker1(Fired(v, ci), w0, Bare(Hand(Ring))));
  }

  /** Worker 1 is in the lambda. */
  function InLambda(v: View, w0: Worker, fb: Fiber, prog: Prog): View {
    v.(workers := map[0 := w0, 1 := Worker(Run(1, true), Some(1), false)], fibers := map[0 := fb, 1 := Lambda(prog)],
       nextFiber := 2)
  }

  lemma LambdaRuns(s0: State, v: View, w0: Worker, fb: Fiber, ci: CallInfo) returns (s: State)
    requires Shows(s0, v) && Before(v, w0, fb, ci)
    ensures Shows(s, InLambda(Fired(v, ci), w0, fb, Expiring(0)))
  {
    s := LambdaTaken(s0, v, w0, fb, ci);
    s := Advance(s, Loop(TakeUp(1)), InLambda(Fired(v, ci), w0, fb, Expiring(0)));
  }

  lemma MarksView(v: View, w0: Worker, fb: Fiber, ci: CallInfo)
    ensures var v1 := InLambda(Fired(v, ci), w0, fb, Expiring(0));
            PassedCheck(v1, 1, 0) == InLambda(Fired(v, ci.(flag := true)), w0, fb, Cancelling(0))
  {
  }

  /** The lambda passes its check. */
  lemma LambdaMarks(s0: State, v: View, w0: Worker, fb: Fiber, ci: CallInfo) returns (s: State)
    requires Shows(s0, v) && Before(v, w0, fb, ci) && ci.alive && !ci.flag
    ensures Shows(s, InLambda(Fired(v, ci.(flag := true)), w0, fb, Cancelling(0)))
  {
    s := LambdaRuns(s0, v, w0, fb, ci);
    ExpireView(s, 1, 0, InLambda(Fired(v, ci), w0, fb, Expiring(0)));
    MarksView(v, w0, fb, ci);
    s := Advance(s, Hook(TimeoutCheck(1, 0)), InLambda(Fired(v, ci.(flag := true)), w0, fb, Cancelling(0)));
  }

  // ---------------------------------------------------------------- a time-out that comes too early

  const Adder: Fiber := Caller(EXEC(0), InCall(0, Registering), None)

  function TooEarly(): View {
    View(map[0 := Bare(Run(0, false)), 1 := Worker(Run(1, true), Some(1), false)], map[0 := Adder, 1 := Lambda(Free)],
         map[0 := Call(None, 1, 0, 0).(flag := true)], [], map[], map[], 2, 2, 1, 1)
  }

  lemma LambdaTooEarly() returns (s: State)
    ensures Shows(s, TooEarly())
  {
    s := TimerArmed();
    s := LambdaMarks(s, Armed(), Bare(Run(0, false)), Adder, Call(None, 0, 0, 0));
    s := Advance(s, Hook(TimeoutCancel(1, 0)), TooEarly());
  }

  lemma NobodyCancels(s: State)
    requires Shows(s, TooEarly())
    ensures !CancelUnderWay(s, 0) && s.fibers == map[0 := Adder, 1 := Lambda(Free)]
  {
    assert !IsCanceller(s.fibers, 0, 0) && !IsCanceller(s.fibers, 1, 0);
  }

  lemma AddLoses(s: State)
    requires Shows(s, TooEarly())
    ensures HookEnabled(s, CallRegister(0, 0)) && Lost(HookApply(s, CallRegister(0, 0)), 0)
  {
    NobodyCancels(s);
    LostAtAdd(s, 0, 0);
  }

  const Again: Ticket := Ticket(2, Wake(0))

  function TooLate(): View {
    View(map[0 := Bare(Run(0, false)), 1 := Worker(Run(1, true), Some(1), false)],
         map[0 := Caller(EXEC(0), InCall(0, Suspending), Some(Again)), 1 := Lambda(Free)],
         map[0 := Call(Some(Again), 1, 1, 0).(flag := true)], [], map[ConnKey := Again], map[], 3, 2, 1, 1)
  }

  lemma TooLateView()
    ensures AfterAdd(TooEarly(), 0, 0, Again) == TooLate()
  {
  }

  lemma AddsTooLate() returns (s: State)
    ensures Shows(s, TooLate()) && Lost(s, 0)
  {
    var s0 := LambdaTooEarly();
    AddLoses(s0);
    RegisterView(s0, 0, 0, TooEarly(), Again);
    TooLateView();
    s := Advance(s0, Hook(CallRegister(0, 0)), TooLate());
  }

  /** The time-out of a hooked call can get lost: the timer may expire, and its callback may
      run, between addTimer and addEvent. */
  lemma TimeoutCanGetLost() returns (s: State)
    ensures Reachable(s) && Lost(s, 0) && s.fibers[s.calls[0].fiber].state.HOLD?
  {
    var s0 := AddsTooLate();
    LostStays(s0, Hook(CallSuspend(0, 0)), 0);
    ReachableStep(s0, Hook(CallSuspend(0, 0)));
    s := Apply(s0, Hook(CallSuspend(0, 0)));
    assert s == EndHold(s0, 0);
  }

  // ---------------------------------------------------------------- a time-out that hits the next call

  /** Fiber 0 has registered and is suspended in its call. */
  function Asleep(): View {
    Armed().(workers := map[0 := Bare(Head), 1 := Bare(Head)], fibers := map[0 := Caller(HOLD, InCall(0, Suspending), Some(Again))],
             calls := map[0 := Call(Some(Again), 0, 1, 0)], regs := map[ConnKey := Again], nextTicket := 3)
  }

  lemma CallAdds() returns (s: State)
    ensures Shows(s, Asleep().(workers := map[0 := Bare(Run(0, false)), 1 := Bare(Head)],
                       fibers := map[0 := Caller(EXEC(0), InCall(0, Suspending), Some(Again))]))
  {
    s := TimerArmed();
    RegisterView(s, 0, 0, Armed(), Again);
    s := Advance(s, Hook(CallRegister(0, 0)), Asleep().(workers := map[0 := Bare(Run(0, false)), 1 := Bare(Head)],
                       fibers := map[0 := Caller(EXEC(0), InCall(0, Suspending), Some(Again))]));
  }

  lemma CallSleeps() returns (s: State)
    ensures Shows(s, Asleep())
  {
    s := CallAdds();
    HoldView(s, 0, ViewOf(s));
    s := Advance(s, Hook(CallSuspend(0, 0)), Asleep());
  }

  const Sleeper: Fiber := Caller(HOLD, InCall(0, Suspending), Some(Again))
  const Marked: CallInfo := Call(Some(Again), 1, 1, 0).(flag := true)

  /** Worker 1 is between the check of the lambda and its cancelEvent, and worker 0 at pc, while
      call 0 is suspended. */
  function PastCheck(pc: Pc, queue: seq<Entry>, regs: map<Key, Ticket>): View {
    View(map[0 := Bare(pc), 1 := Worker(Run(1, true), Some(1), false)], map[0 := Sleeper, 1 := Lambda(Cancelling(0))],
         map[0 := Marked], queue, regs, map[], 3, 2, 1, 1)
  }

  lemma LambdaPastCheck() returns (s: State)
    ensures Shows(s, PastCheck(Head, [], map[ConnKey := Again]))
  {
    s := CallSleeps();
    s := LambdaMarks(s, Asleep(), Bare(Head), Sleeper, Call(Some(Again), 0, 1, 0));
  }

  lemma OtherFindsNothing() returns (s: State)
    ensures Shows(s, PastCheck(NoTask, [], map[ConnKey := Again]))
  {
    s := LambdaPastCheck();
    s := Advance(s, Loop(Dequeue(0)), PastCheck(NoTask, [], map[ConnKey := Again]));
  }

  lemma OtherIdles() returns (s: State)
    ensures Shows(s, PastCheck(Idling, [], map[ConnKey := Again]))
  {
    s := OtherFindsNothing();
    s := Advance(s, Loop(EnterIdle(0)), PastCheck(Idling, [], map[ConnKey := Again]));
  }

  lemma OtherWaits() returns (s: State)
    ensures Shows(s, PastCheck(Polling({}), [], map[ConnKey := Again]))
  {
    s := OtherIdles();
    assert ConnKey in s.regs;
    s := Advance(s, Loop(CheckStopping(0)), PastCheck(Polling({}), [], map[ConnKey := Again]));
  }

  lemma OtherDispatches() returns (s: State)
    ensures Shows(s, PastCheck(Polling({}), [Entry(Again, None)], map[]))
  {
    s := OtherWaits();
    s := Advance(s, Loop(Dispatch(0, ConnKey)), PastCheck(Polling({}), [Entry(Again, None)], map[]));
  }

  lemma OtherLeavesIdle() returns (s: State)
    ensures Shows(s, PastCheck(Head, [Entry(Again, None)], map[]))
  {
    s := OtherDispatches();
    s := Advance(s, Loop(LeaveIdle(0)), PastCheck(Head, [Entry(Again, None)], map[]));
  }

  lemma CallTaken() returns (s: State)
    ensures Shows(s, PastCheck(Hand(Again), [], map[]))
  {
    s := OtherLeavesIdle();
    s := Advance(s, Loop(Dequeue(0)), PastCheck(Hand(Again), [], map[]));
  }

  const Awake: CallInfo := Call(None, 1, 1, 1).(flag := true)
  const Done: CallInfo := Awake.(alive := false, timedOut := true)

  /** The same while fiber 0 runs on worker 0. */
  function Awoken(prog: Prog, ci: CallInfo): View {
    View(map[0 := Bare(Run(0, false)), 1 := Worker(Run(1, true), Some(1), false)],
         map[0 := Caller(EXEC(0), prog, None), 1 := Lambda(Cancelling(0))], map[0 := ci], [], map[], map[], 3, 2, 1, 1)
  }

  lemma CallWakes() returns (s: State)
    ensures Shows(s, Awoken(InCall(0, Woken), Awake))
  {
    s := CallTaken();
    s := Advance(s, Loop(TakeUp(0)), Awoken(InCall(0, Woken), Awake));
  }

  lemma CallDisarms() returns (s: State)
    ensures Shows(s, Awoken(InCall(0, Checking), Awake))
  {
    s := CallWakes();
    s := Advance(s, Hook(CallDisarm(0, 0)), Awoken(InCall(0, Checking), Awake));
  }

  lemma CallTimesOut() returns (s: State)
    ensures Shows(s, Awoken(Free, Done))
  {
    s := CallDisarms();
    s := Advance(s, Hook(CallCheck(0, 0)), Awoken(Free, Done));
  }

  /** The next call of the fiber: a connect without time-out. */
  function Next(ticket: Option<Ticket>, attempts: nat): CallInfo {
    CallInfo(0, ConnKey, false, false, None, false, true, None, ticket, 0, attempts, 0, false)
  }

  function InNext(at: CallPoint): View {
    Awoken(InCall(1, at), Done).(calls := map[0 := Done, 1 := Next(None, 0)], nextCall := 2)
  }

  lemma NextBegins() returns (s: State)
    ensures Shows(s, InNext(Trying))
  {
    s := CallTimesOut();
    s := Advance(s, Hook(CallBegin(0, ConnKey, false, false)), InNext(Trying));
  }

  lemma NextBlocks() returns (s: State)
    ensures Shows(s, InNext(Arming))
  {
    s := NextBegins();
    s := Advance(s, Hook(CallBlocks(0, 1)), InNext(Arming));
  }

  lemma NextArms() returns (s: State)
    ensures Shows(s, InNext(Registering))
  {
    s := NextBlocks();
    s := Advance(s, Hook(CallArm(0, 1)), InNext(Registering));
  }

  const Third: Ticket := Ticket(3, Wake(0))

  /** Registered as well; worker 0 is at pc. */
  function NextWaits(pc: Pc, state: FiberState): View {
    View(map[0 := Bare(pc), 1 := Worker(Run(1, true), Some(1), false)],
         map[0 := Caller(state, InCall(1, Suspending), Some(Third)), 1 := Lambda(Cancelling(0))],
         map[0 := Done, 1 := Next(Some(Third), 1)], [], map[ConnKey := Third], map[], 4, 2, 1, 2)
  }

  lemma NextWaitsView()
    ensures AfterAdd(InNext(Registering), 0, 1, Third) == NextWaits(Run(0, false), EXEC(0))
  {
  }

  lemma NextRegisters() returns (s: State)
    ensures Shows(s, NextWaits(Run(0, false), EXEC(0)))
  {
    s := NextArms();
    RegisterView(s, 0, 1, InNext(Registering), Third);
    NextWaitsView();
    s := Advance(s, Hook(CallRegister(0, 1)), NextWaits(Run(0, false), EXEC(0)));
  }

  lemma NextSleeps() returns (s: State)
    ensures Shows(s, NextWaits(Head, HOLD))
  {
    s := NextRegisters();
    HoldView(s, 0, NextWaits(Run(0, false), EXEC(0)));
    s := Advance(s, Hook(CallSuspend(0, 1)), NextWaits(Head, HOLD));
  }

  /** The time-out of a call that is over can end the wait of the next one: call 0 has returned
      with ETIMEDOUT, call 1 has no time-out and waits on the same key, and the lambda of call 0
      is about to put its fiber into the queue. */
  lemma TimeoutCanHitNextCall() returns (s: State)
    ensures Reachable(s) && Over(s, 0) && s.calls[0].timedOut && CanAct(s, 0)
    ensures 1 in s.calls && s.calls[1].alive && !s.calls[1].limited && s.calls[1].ticket.Some?
    ensures s.regs == map[s.calls[1].key := s.calls[1].ticket.value]
    ensures HookEnabled(s, TimeoutCancel(1, 0))
    ensures HookApply(s, TimeoutCancel(1, 0)).queue == s.queue + [Entry(s.calls[1].ticket.value, None)]
  {
    s := NextSleeps();
    assert IsCanceller(s.fibers, 1, 0);
    assert 1 in Cancellers(s.fibers, 0);
    OverActsIff(s, 0);
    CancelDoes(s, 1, 0);
  }

  // ---------------------------------------------------------------- a callback that finishes too early

  const C0: Ticket := Ticket(0, Invoke(User(0)))
  const C1: Ticket := Ticket(1, Invoke(User(1)))
  const HostWake: Ticket := Ticket(2, Wake(0))

  /** Worker 0 runs callbacks in fiber 0. */
  function Hosting(w0: Worker, pc1: Pc, host: Fiber, queue: seq<Entry>, regs: map<Key, Ticket>, nextTicket: nat): View {
    View(map[0 := w0, 1 := Bare(pc1)], map[0 := host], map[], queue, regs, map[], nextTicket, 1, 0, 0)
  }

  function HostOf(tk: Ticket, cb: Callback, wake: Option<Ticket>): Fiber {
    Fiber(EXEC(0), Some(cb), Free, Some(tk), wake, Some(0))
  }

  const InHost: Worker := Worker(Run(0, true), Some(0), false)

  lemma CallbackQueued() returns (s: State)
    ensures Shows(s, View(map[0 := Bare(Head), 1 := Bare(Head)], map[], map[], [Entry(C0, None)], map[], map[], 1, 0, 0, 0))
  {
    s := Init({0, 1});
    assert Valid(s, []) && After(s, []) == s;
    s := Advance(s, Code(ScheduleCallback(Outside, 0, None)),
                 View(map[0 := Bare(Head), 1 := Bare(Head)], map[], map[], [Entry(C0, None)], map[], map[], 1, 0, 0, 0));
  }

  lemma CallbackTaken() returns (s: State)
    ensures Shows(s, View(map[0 := Bare(Hand(C0)), 1 := Bare(Head)], map[], map[], [], map[], map[], 1, 0, 0, 0))
  {
    s := CallbackQueued();
    assert Scan(s.queue, 0, s.fibers) == 0;
    s := Advance(s, Loop(Dequeue(0)), View(map[0 := Bare(Hand(C0)), 1 := Bare(Head)], map[], map[], [], map[], map[], 1, 0, 0, 0));
  }

  lemma CallbackRuns() returns (s: State)
    ensures Shows(s, Hosting(InHost, Head, HostOf(C0, User(0), None), [], map[], 1))
  {
    s := CallbackTaken();
    s := Advance(s, Loop(TakeUp(0)), Hosting(InHost, Head, HostOf(C0, User(0), None), [], map[], 1));
  }

  lemma CallbackSchedules() returns (s: State)
    ensures Shows(s, Hosting(InHost, Head, HostOf(C0, User(0), None), [Entry(C1, Some(0))], map[], 2))
  {
    s := CallbackRuns();
    s := Advance(s, Code(ScheduleCallback(On(0), 1, Some(0))), Hosting(InHost, Head, HostOf(C0, User(0), None), [Entry(C1, Some(0))], map[], 2));
  }

  function HostBusy(): View {
    Hosting(InHost, Head, HostOf(C0, User(0), Some(HostWake)), [Entry(C1, Some(0))], map[ConnKey := HostWake], 3)
  }

  lemma CallbackRegisters() returns (s: State)
    ensures Shows(s, HostBusy())
  {
    s := CallbackSchedules();
    s := Advance(s, Code(AddEventFiber(0, ConnKey)), HostBusy());
  }

  /** The steps of the runtime without the condition on finishing callbacks. */
  predicate Possible(s: State, st: Step) {
    match st
    case Code(Finish(w, threw)) => RunsProg(s, w, Free)
    case _ => Enabled(s, st)
  }

  function Outcome(s: State, st: Step): State
    requires Possible(s, st)
  {
    match st
    case Code(Finish(w, threw)) => EndFinish(s, w, threw)
    case _ => Apply(s, st)
  }

  /** The condition: a callback does not finish while a wake of the fiber it runs in is outstanding. */
  predicate HostWoken(s: State, st: Step) {
    match st
    case Code(Finish(w, threw)) => Running(s, w) && s.workers[w].pc.hosted ==> s.fibers[Cur(s, w)].wake == None
    case _ => true
  }

  predicate PossibleRun(s: State, steps: seq<Step>)
    decreases |steps|
  {
    steps == [] || (Possible(s, steps[0]) && PossibleRun(Outcome(s, steps[0]), steps[1..]))
  }

  function Final(s: State, steps: seq<Step>): State
    requires PossibleRun(s, steps)
    decreases |steps|
  {
    if steps == [] then s else Final(Outcome(s, steps[0]), steps[1..])
  }

  predicate WokenRun(s: State, steps: seq<Step>)
    requires PossibleRun(s, steps)
    decreases |steps|
  {
    steps == [] || (HostWoken(s, steps[0]) && WokenRun(Outcome(s, steps[0]), steps[1..]))
  }

  lemma EnabledIff(s: State, st: Step)
    ensures Enabled(s, st) <==> Possible(s, st) && HostWoken(s, st)
    ensures Enabled(s, st) ==> Outcome(s, st) == Apply(s, st)
  {
  }

  lemma {:induction false} WokenRunIs(s: State, steps: seq<Step>)
    requires PossibleRun(s, steps) && WokenRun(s, steps)
    ensures Valid(s, steps) && After(s, steps) == Final(s, steps)
    decreases |steps|
  {
    if steps != [] {
      EnabledIff(s, steps[0]);
      WokenRunIs(Outcome(s, steps[0]), steps[1..]);
    }
  }

  lemma {:induction false} ValidPossible(s: State, steps: seq<Step>)
    requires Valid(s, steps)
    ensures PossibleRun(s, steps) && Final(s, steps) == After(s, steps)
    decreases |steps|
  {
    if steps != [] {
      EnabledIff(s, steps[0]);
      ValidPossible(Apply(s, steps[0]), steps[1..]);
    }
  }

  /** If every callback of a run keeps to the condition, no state assertion fails on the way on,
      and no fiber is ever executing on two workers. */
  lemma SafeIfWoken(ws: set<WorkerId>, steps: seq<Step>, st: Step)
    requires PossibleRun(Init(ws), steps) && WokenRun(Init(ws), steps)
    requires var s := Final(Init(ws), steps); Possible(s, st) && HostWoken(s, st)
    ensures var s := Final(Init(ws), steps);
            && Enabled(s, st) && AssertsHold(s, st)
            && forall v, w | Running(s, v) && Running(s, w) && Cur(s, v) == Cur(s, w) :: v == w
  {
    var s := Final(Init(ws), steps);
    WokenRunIs(Init(ws), steps);
    EnabledIff(s, st);
    NoAssertFails(s, st);
    forall v, w | Running(s, v) && Running(s, w) && Cur(s, v) == Cur(s, w) ensures v == w {
      OneOwner(s, v, w);
    }
  }

  /** Then the callback returns without having been woken. */
  function TooSoon(s: State): State
    requires ViewOf(s) == HostBusy()
  {
    EndFinish(s, 0, false)
  }

  ghost predicate Ran(s0: State, s: State) {
    exists steps: seq<Step> :: Valid(s0, steps) && After(s0, steps) == s
  }

  lemma Follow(s0: State, s: State, st: Step, v: View) returns (s': State)
    requires Ran(s0, s) && Enabled(s, st) && ViewOf(Apply(s, st)) == v
    ensures Ran(s0, s') && ViewOf(s') == v && s' == Apply(s, st)
  {
    var steps: seq<Step> :| Valid(s0, steps) && After(s0, steps) == s;
    RunAppend(s0, steps, st);
    s' := Apply(s, st);
    assert After(s0, steps + [st]) == s';
  }

  /** What the runtime can do after that. */
  ghost predicate Follows(s0: State, s: State, v: View)
    requires ViewOf(s0) == HostBusy()
  {
    Ran(TooSoon(s0), s) && ViewOf(s) == v
  }

  const Recycled: Fiber := Fiber(INIT, None, Free, None, Some(HostWake), Some(0))
  const HostHead: Worker := Worker(Head, Some(0), false)

  lemma ReturnsTooSoon(s0: State) returns (s: State)
    requires Shows(s0, HostBusy())
    ensures Follows(s0, s, Hosting(HostHead, Head, Recycled, [Entry(C1, Some(0))], map[ConnKey := HostWake], 3))
  {
    s := TooSoon(s0);
    assert Valid(s, []) && After(s, []) == s;
  }

  lemma ThiefFindsNothing(s0: State) returns (s: State)
    requires Shows(s0, HostBusy())
    ensures Follows(s0, s, Hosting(HostHead, NoTask, Recycled, [Entry(C1, Some(0))], map[ConnKey := HostWake], 3))
  {
    s := ReturnsTooSoon(s0);
    assert Scan(s.queue, 1, s.fibers) == 1;
    s := Follow(TooSoon(s0), s, Loop(Dequeue(1)), Hosting(HostHead, NoTask, Recycled, [Entry(C1, Some(0))], map[ConnKey := HostWake], 3));
  }

  lemma ThiefIdles(s0: State) returns (s: State)
    requires Shows(s0, HostBusy())
    ensures Follows(s0, s, Hosting(HostHead, Idling, Recycled, [Entry(C1, Some(0))], map[ConnKey := HostWake], 3))
  {
    s := ThiefFindsNothing(s0);
    s := Follow(TooSoon(s0), s, Loop(EnterIdle(1)), Hosting(HostHead, Idling, Recycled, [Entry(C1, Some(0))], map[ConnKey := HostWake], 3));
  }

  lemma ThiefWaits(s0: State) returns (s: State)
    requires Shows(s0, HostBusy())
    ensures Follows(s0, s, Hosting(HostHead, Polling({}), Recycled, [Entry(C1, Some(0))], map[ConnKey := HostWake], 3))
  {
    s := ThiefIdles(s0);
    assert ConnKey in s.regs;
    s := Follow(TooSoon(s0), s, Loop(CheckStopping(1)), Hosting(HostHead, Polling({}), Recycled, [Entry(C1, Some(0))], map[ConnKey := HostWake], 3));
  }

  lemma ThiefDispatches(s0: State) returns (s: State)
    requires Shows(s0, HostBusy())
    ensures Follows(s0, s, Hosting(HostHead, Polling({}), Recycled, [Entry(C1, Some(0)), Entry(HostWake, None)], map[], 3))
  {
    s := ThiefWaits(s0);
    s := Follow(TooSoon(s0), s, Loop(Dispatch(1, ConnKey)), Hosting(HostHead, Polling({}), Recycled, [Entry(C1, Some(0)), Entry(HostWake, None)], map[], 3));
  }

  lemma ThiefLeavesIdle(s0: State) returns (s: State)
    requires Shows(s0, HostBusy())
    ensures Follows(s0, s, Hosting(HostHead, Head, Recycled, [Entry(C1, Some(0)), Entry(HostWake, None)], map[], 3))
  {
    s := ThiefDispatches(s0);
    s := Follow(TooSoon(s0), s, Loop(LeaveIdle(1)), Hosting(HostHead, Head, Recycled, [Entry(C1, Some(0)), Entry(HostWake, None)], map[], 3));
  }

  lemma ThiefTakesWake(s0: State) returns (s: State)
    requires Shows(s0, HostBusy())
    ensures Follows(s0, s, Hosting(HostHead, Hand(HostWake), Recycled, [Entry(C1, Some(0))], map[], 3))
  {
    s := ThiefLeavesIdle(s0);
    assert !Eligible(s.queue[0], 1, s.fibers) && Scan(s.queue, 1, s.fibers) == 1;
    s := Follow(TooSoon(s0), s, Loop(Dequeue(1)), Hosting(HostHead, Hand(HostWake), Recycled, [Entry(C1, Some(0))], map[], 3));
  }

  lemma HostTakesNext(s0: State) returns (s: State)
    requires Shows(s0, HostBusy())
    ensures Follows(s0, s, Hosting(Worker(Hand(C1), Some(0), false), Hand(HostWake), Recycled, [], map[], 3))
  {
    s := ThiefTakesWake(s0);
    assert Scan(s.queue, 0, s.fibers) == 0;
    s := Follow(TooSoon(s0), s, Loop(Dequeue(0)), Hosting(Worker(Hand(C1), Some(0), false), Hand(HostWake), Recycled, [], map[], 3));
  }

  lemma HostRunsNext(s0: State) returns (s: State)
    requires Shows(s0, HostBusy())
    ensures Follows(s0, s, Hosting(InHost, Hand(HostWake), HostOf(C1, User(1), None), [], map[], 3))
  {
    s := HostTakesNext(s0);
    s := Follow(TooSoon(s0), s, Loop(TakeUp(0)), Hosting(InHost, Hand(HostWake), HostOf(C1, User(1), None), [], map[], 3));
  }

  /** Without the condition: a callback calls addEvent for the fiber it runs in and returns
      before it is woken.  The fiber is recycled, the next callback runs in it on worker 0, and
      worker 1 takes up the old wake and finds it executing: the state assertion of swapIn fails. */
  lemma RecycledTooSoon() returns (s: State, steps: seq<Step>)
    ensures Reachable(s) && PossibleRun(s, steps)
    ensures steps != [] && steps[0] == Code(Finish(0, false)) && !HostWoken(s, steps[0])
    ensures var s' := Final(s, steps);
            && Enabled(s', Loop(TakeUp(1))) && !AssertsHold(s', Loop(TakeUp(1)))
            && s'.workers[1].pc.ticket.task == Wake(0) && Running(s', 0) && Cur(s', 0) == 0
  {
    s := CallbackRegisters();
    var s' := HostRunsNext(s);
    var rest: seq<Step> :| Valid(TooSoon(s), rest) && After(TooSoon(s), rest) == s';
    ValidPossible(TooSoon(s), rest);
    steps := [Code(Finish(0, false))] + rest;
    assert steps[1..] == rest && Outcome(s, steps[0]) == TooSoon(s);
  }
}
