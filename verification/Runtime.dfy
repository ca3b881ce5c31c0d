/**
  The fiber runtime as a step system: N workers of one IOManager, their shared task queue,
  the fibers they run, the (fd, event) registrations, the armed timers and the hooked
  blocking calls built on top of them.

  Every unit of work handed to the runtime (by schedule, addEvent or addTimer) is a
  `Ticket`: the very task stored, plus a serial number that exists only to tell two equal
  tasks apart.  The containers of the runtime hold tickets; `place` is a history variable
  saying where each ticket ever issued is now.
*/
module Runtime {
  import opened Prelude

  type WorkerId = nat
  type FiberId = nat
  type TimerId = nat
  type CallId = nat

  datatype Event = READ | WRITE

  datatype Key = Key(fd: nat, event: Event)

  /** A std::function the runtime can hold: user code, the bound `schedule(fiber)` of the
      hooked sleep, or the time-out lambda of a hooked call. */
  datatype Callback = User(id: nat) | Resume(sleeper: FiberId) | Timeout(call: CallId)

  datatype Task = Wake(fiber: FiberId) | Invoke(cb: Callback)

  datatype Ticket = Ticket(serial: nat, task: Task)

  /** An element of m_fibers; `pin` is the thread the entry is bound to, if any. */
  datatype Entry = Entry(ticket: Ticket, pin: Option<WorkerId>)

  /** READY never shows between two steps: the worker turns it into a queue entry in the
      same step as the yield. */
  datatype FiberState = INIT | HOLD | EXEC(worker: WorkerId) | TERM | EXCEPT

  /** Program points of do_io and connect_with_timeout. */
  datatype CallPoint =
    | Trying        // about to issue the system call
    | Arming        // it would block: about to add the condition timer
    | Registering   // about to call addEvent
    | Suspending    // registered; about to yield, or suspended
    | Woken         // resumed; about to cancel the timer
    | Checking      // about to look at tinfo->cancelled
    | Failing       // addEvent failed; about to cancel the timer

  /** What the code of a fiber does next. */
  datatype Prog =
    | Free                                      // ordinary user code
    | InCall(call: CallId, at: CallPoint)       // inside a hooked call
    | Resuming(sleeper: FiberId)                // about to schedule a sleeping fiber
    | Expiring(call: CallId)                    // time-out lambda, before its check
    | Cancelling(call: CallId)                  // time-out lambda, about to call cancelEvent

  datatype Fiber = Fiber(
    state: FiberState,
    cb: Option<Callback>,        // m_cb
    prog: Prog,
    job: Option<Ticket>,         // history: the callback ticket this fiber is running
    wake: Option<Ticket>,        // history: the one outstanding ticket that will resume it
    spareOf: Option<WorkerId>)   // history: the worker whose cb_fiber it is

  datatype Pc =
    | Head                       // top of the loop in run
    | Hand(ticket: Ticket)       // dequeued, counted as active, not yet swapped in
    | Run(fiber: FiberId, hosted: bool)   // in swapIn; hosted: the cb_fiber branch
    | NoTask                     // nothing eligible
    | Idling                     // idle fiber: about to evaluate stopping
    | Polling(cbs: set<Ticket>)  // idle fiber: past the check; callbacks collected so far
    | Left                       // out of run

  datatype Worker = Worker(pc: Pc, spare: Option<FiberId>, idleDone: bool)

  datatype Timer = Timer(ticket: Ticket, recurring: bool)

  /** One hooked call. `flag` is tinfo->cancelled, `alive` says that tinfo still exists. */
  datatype CallInfo = CallInfo(
    fiber: FiberId,
    key: Key,
    limited: bool,               // a time-out is set
    retries: bool,               // do_io retries, connect_with_timeout does not
    timer: Option<TimerId>,
    flag: bool,
    alive: bool,
    ring: Option<Ticket>,        // history: ticket of the timer of this attempt
    ticket: Option<Ticket>,      // history: registration of this attempt
    fired: nat,                  // history: own timers that expired
    attempts: nat,               // history: registrations accepted
    resumes: nat,                // history: times resumed from the yield
    timedOut: bool)              // history: the call returned -1 with ETIMEDOUT

  datatype Place =
    | Registered(key: Key)
    | Armed(timer: TimerId)
    | Collected(worker: WorkerId)
    | Queued
    | InHand(worker: WorkerId)
    | Inside(fiber: FiberId)     // a callback whose fiber runs or is suspended
    | Used                       // a wake consumed by swapIn, or a callback that finished
    | Dropped                    // dequeued for a fiber that had already finished
    | Deleted                    // registration removed by delEvent
    | Cancelled                  // timer removed by cancel

  datatype State = State(
    queue: seq<Entry>,
    active: int,                 // m_activeThreadCount
    idle: int,                   // m_idleThreadCount
    stopping: bool,              // m_stopping
    workers: map<WorkerId, Worker>,
    fibers: map<FiberId, Fiber>,
    regs: map<Key, Ticket>,
    timers: map<TimerId, Timer>,
    calls: map<CallId, CallInfo>,
    place: map<Ticket, Place>,
    nextTicket: nat,
    nextFiber: nat,
    nextTimer: nat,
    nextCall: nat,
    adds: map<Key, nat>,         // history: accepted addEvent calls
    fires: map<Key, nat>,        // history: triggered events
    dels: map<Key, nat>)         // history: successful delEvent calls

  function Init(workers: set<WorkerId>): State {
    State([], 0, 0, false,
          map w | w in workers :: Worker(Head, None, false),
          map[], map[], map[], map[], map[], 0, 0, 0, 0, map[], map[], map[])
  }

  // ---------------------------------------------------------------- vocabulary

  function Carries(t: Task): Option<FiberId> {
    match t
    case Wake(f) => Some(f)
    case Invoke(Resume(f)) => Some(f)
    case Invoke(_) => None
  }

  predicate At(place: map<Ticket, Place>, tk: Ticket, p: Place) {
    tk in place && place[tk] == p
  }

  function Count(m: map<Key, nat>, k: Key): nat {
    if k in m then m[k] else 0
  }

  function Bump(m: map<Key, nat>, k: Key): map<Key, nat> {
    m[k := Count(m, k) + 1]
  }


  predicate Running(s: State, w: WorkerId) {
    && w in s.workers
    && s.workers[w].pc.Run?
    && s.workers[w].pc.fiber in s.fibers
  }

  function Cur(s: State, w: WorkerId): FiberId
    requires Running(s, w)
  {
    s.workers[w].pc.fiber
  }

  predicate RunsProg(s: State, w: WorkerId, p: Prog) {
    Running(s, w) && s.fibers[Cur(s, w)].prog == p
  }

  predicate RunsCall(s: State, w: WorkerId, c: CallId, at: CallPoint) {
    RunsProg(s, w, InCall(c, at)) && c in s.calls
  }

  /** This work resumes no fiber, or one without an outstanding wake that is not a worker's
      idle cb_fiber. */
  predicate NoWake(fibers: map<FiberId, Fiber>, t: Task) {
    Carries(t).Some? ==>
      var f := Carries(t).value;
      && f in fibers
      && fibers[f].wake == None
      && (fibers[f].spareOf.Some? ==> fibers[f].state.EXEC?)
  }

  /** Moreover the fiber is not inside a hooked call, which arranges its own wake. */
  predicate Wakeable(fibers: map<FiberId, Fiber>, t: Task) {
    NoWake(fibers, t) && (Carries(t).Some? ==> !fibers[Carries(t).value].prog.InCall?)
  }

  function SetWake(fibers: map<FiberId, Fiber>, t: Task, tk: Option<Ticket>): map<FiberId, Fiber> {
    match Carries(t)
    case None => fibers
    case Some(f) => if f in fibers then fibers[f := fibers[f].(wake := tk)] else fibers
  }

  // ---------------------------------------------------------------- scheduler.h

  /** scheduleNoLock: a new ticket at the back of the queue. */
  function Push(s: State, t: Task, pin: Option<WorkerId>): State {
    var tk := Ticket(s.nextTicket, t);
    s.(queue := s.queue + [Entry(tk, pin)],
       place := s.place[tk := Queued],
       fibers := SetWake(s.fibers, t, Some(tk)),
       nextTicket := s.nextTicket + 1)
  }

  // ---------------------------------------------------------------- iomanager.cpp

  /** addEvent for a task that is not the current fiber of a hooked call. */
  function Register(s: State, k: Key, t: Task): State {
    var tk := Ticket(s.nextTicket, t);
    s.(regs := s.regs[k := tk],
       place := s.place[tk := Registered(k)],
       fibers := SetWake(s.fibers, t, Some(tk)),
       nextTicket := s.nextTicket + 1,
       adds := Bump(s.adds, k))
  }

  /** triggerEvent: the stored task moves from the registration to the queue. */
  function Fire(s: State, k: Key): State
    requires k in s.regs
  {
    var tk := s.regs[k];
    s.(regs := s.regs - {k},
       queue := s.queue + [Entry(tk, None)],
       place := s.place[tk := Queued],
       fires := Bump(s.fires, k))
  }

  /** delEvent: the stored task is dropped without being scheduled. */
  function Unregister(s: State, k: Key): State
    requires k in s.regs
  {
    var tk := s.regs[k];
    s.(regs := s.regs - {k},
       place := s.place[tk := Deleted],
       fibers := SetWake(s.fibers, tk.task, None),
       dels := Bump(s.dels, k))
  }

  // ---------------------------------------------------------------- timer.cpp

  function Arm(s: State, t: Task, recurring: bool): State {
    var tk := Ticket(s.nextTicket, t);
    s.(timers := s.timers[s.nextTimer := Timer(tk, recurring)],
       place := s.place[tk := Armed(s.nextTimer)],
       fibers := SetWake(s.fibers, t, Some(tk)),
       nextTicket := s.nextTicket + 1,
       nextTimer := s.nextTimer + 1)
  }

  /** Timer::cancel on a timer whose callback is still set. */
  function Disarm(s: State, t: TimerId): State
    requires t in s.timers
  {
    var tk := s.timers[t].ticket;
    s.(timers := s.timers - {t},
       place := s.place[tk := Cancelled])
  }

  /** One timer of listExpiredCb: a one-shot hands over its callback, a recurring one stays
      armed and hands over a copy. */
  function Collect(s: State, w: WorkerId, t: TimerId): State
    requires w in s.workers && s.workers[w].pc.Polling? && t in s.timers
  {
    var tm := s.timers[t];
    var wk := s.workers[w];
    if tm.recurring then
      var tk := Ticket(s.nextTicket, tm.ticket.task);
      s.(place := s.place[tk := Collected(w)],
         workers := s.workers[w := wk.(pc := Polling(wk.pc.cbs + {tk}))],
         nextTicket := s.nextTicket + 1)
    else
      s.(timers := s.timers - {t},
         place := s.place[tm.ticket := Collected(w)],
         workers := s.workers[w := wk.(pc := Polling(wk.pc.cbs + {tm.ticket}))],
         calls := CountExpiry(s.calls, tm.ticket.task))
  }

  function CountExpiry(calls: map<CallId, CallInfo>, t: Task): map<CallId, CallInfo> {
    if t.Invoke? && t.cb.Timeout? && t.cb.call in calls then
      var c := t.cb.call;
      calls[c := calls[c].(fired := calls[c].fired + 1)]
    else
      calls
  }

  /** The scheduling of a collected callback by the idle loop. */
  function Submit(s: State, w: WorkerId, tk: Ticket): State
    requires w in s.workers && s.workers[w].pc.Polling?
  {
    var wk := s.workers[w];
    s.(queue := s.queue + [Entry(tk, None)],
       place := s.place[tk := Queued],
       workers := s.workers[w := wk.(pc := Polling(wk.pc.cbs - {tk}))])
  }

  // ---------------------------------------------------------------- scheduler.cpp: run

  /** May worker w take this entry: it is not pinned elsewhere and does not name a fiber
      that is executing right now. */
  predicate Eligible(e: Entry, w: WorkerId, fibers: map<FiberId, Fiber>) {
    && (e.pin == None || e.pin == Some(w))
    && !(e.ticket.task.Wake? && e.ticket.task.fiber in fibers && fibers[e.ticket.task.fiber].state.EXEC?)
  }

  /** The scan of m_fibers: the first eligible position, or the length of the queue. */
  function Scan(q: seq<Entry>, w: WorkerId, fibers: map<FiberId, Fiber>): (i: nat)
    ensures i <= |q|
    ensures i < |q| ==> Eligible(q[i], w, fibers)
    ensures forall j | 0 <= j < i :: !Eligible(q[j], w, fibers)
  {
    if q == [] then 0
    else if Eligible(q[0], w, fibers) then 0
    else 1 + Scan(q[1..], w, fibers)
  }

  function SetPc(s: State, w: WorkerId, pc: Pc): State
    requires w in s.workers
  {
    s.(workers := s.workers[w := s.workers[w].(pc := pc)])
  }

  /** A worker without a task moves on; only m_idleThreadCount may change with it. */
  function Shift(s: State, w: WorkerId, wk: Worker, idle: int): State {
    s.(workers := s.workers[w := wk], idle := idle)
  }

  function Take(s: State, w: WorkerId, i: nat): State
    requires w in s.workers && i < |s.queue|
  {
    var tk := s.queue[i].ticket;
    SetPc(s.(queue := s.queue[..i] + s.queue[i + 1..],
             place := s.place[tk := InHand(w)],
             active := s.active + 1), w, Hand(tk))
  }

  /** The entry names a fiber that has finished: the worker only drops it. */
  function Drop(s: State, w: WorkerId): State
    requires w in s.workers && s.workers[w].pc.Hand?
  {
    var tk := s.workers[w].pc.ticket;
    SetPc(s.(place := s.place[tk := Dropped],
             fibers := SetWake(s.fibers, tk.task, None),
             active := s.active - 1), w, Head)
  }

  /** swapIn of a suspended fiber. */
  function SwapIn(s: State, w: WorkerId): State
    requires w in s.workers && s.workers[w].pc.Hand?
    requires s.workers[w].pc.ticket.task.Wake? && s.workers[w].pc.ticket.task.fiber in s.fibers
  {
    var tk := s.workers[w].pc.ticket;
    var f := tk.task.fiber;
    var fb := s.fibers[f];
    var in_call := fb.prog.InCall? && fb.prog.call in s.calls;
    SetPc(s.(place := s.place[tk := Used],
             fibers := s.fibers[f := fb.(state := EXEC(w), wake := None,
                                         prog := if in_call then InCall(fb.prog.call, Woken) else fb.prog)],
             calls := if in_call then s.calls[fb.prog.call := Resumed(s.calls[fb.prog.call])] else s.calls),
          w, Run(f, false))
  }

  function Resumed(ci: CallInfo): CallInfo {
    ci.(resumes := ci.resumes + 1, ticket := None)
  }

  /** The code a callback starts with. */
  function Start(cb: Callback): Prog {
    match cb
    case User(_) => Free
    case Resume(f) => Resuming(f)
    case Timeout(c) => Expiring(c)
  }

  /** The fiber a callback will run in: the recycled cb_fiber, or a new one. */
  function Host(s: State, w: WorkerId): FiberId
    requires w in s.workers
  {
    if s.workers[w].spare.Some? then s.workers[w].spare.value else s.nextFiber
  }

  /** Fiber::reset(cb) or new Fiber(cb), then swapIn. */
  function SwapInCallback(s: State, w: WorkerId): State
    requires w in s.workers && s.workers[w].pc.Hand? && s.workers[w].pc.ticket.task.Invoke?
  {
    var tk := s.workers[w].pc.ticket;
    var g := Host(s, w);
    s.(place := s.place[tk := Inside(g)],
       fibers := s.fibers[g := Fiber(EXEC(w), Some(tk.task.cb), Start(tk.task.cb), Some(tk), None, Some(w))],
       workers := s.workers[w := s.workers[w].(pc := Run(g, true), spare := Some(g))],
       nextFiber := if s.workers[w].spare.Some? then s.nextFiber else s.nextFiber + 1)
  }

  /** Yield to HOLD, switch back and the bookkeeping after swapIn. */
  function EndHold(s: State, w: WorkerId): State
    requires Running(s, w)
  {
    var f := Cur(s, w);
    var wk := s.workers[w];
    s.(fibers := s.fibers[f := s.fibers[f].(state := HOLD, spareOf := if wk.pc.hosted then None else s.fibers[f].spareOf)],
       workers := s.workers[w := wk.(pc := Head, spare := if wk.pc.hosted then None else wk.spare)],
       active := s.active - 1)
  }

  /** The function of the fiber returned or threw; a cb_fiber is reset for reuse. */
  function EndFinish(s: State, w: WorkerId, threw: bool): State
    requires Running(s, w)
  {
    var f := Cur(s, w);
    var fb := s.fibers[f];
    var hosted := s.workers[w].pc.hosted;
    var fb' := if hosted then fb.(state := INIT, cb := None, job := None)
               else if threw then fb.(state := EXCEPT, job := None)
               else fb.(state := TERM, cb := None, job := None);
    SetPc(s.(fibers := s.fibers[f := fb'],
             place := if fb.job.Some? then s.place[fb.job.value := Used] else s.place,
             active := s.active - 1), w, Head)
  }

  function TakeFirst(s: State, w: WorkerId): State
    requires w in s.workers
  {
    var i := Scan(s.queue, w, s.fibers);
    if i < |s.queue| then Take(s, w, i) else Shift(s, w, s.workers[w].(pc := NoTask), s.idle)
  }

  function TakeUpHand(s: State, w: WorkerId): State
    requires w in s.workers && s.workers[w].pc.Hand?
    requires s.workers[w].pc.ticket.task.Wake? ==> s.workers[w].pc.ticket.task.fiber in s.fibers
  {
    var t := s.workers[w].pc.ticket.task;
    if t.Invoke? then SwapInCallback(s, w)
    else if s.fibers[t.fiber].state.TERM? || s.fibers[t.fiber].state.EXCEPT? then Drop(s, w)
    else SwapIn(s, w)
  }

  // ---------------------------------------------------------------- fibers and calls

  function SetProg(s: State, f: FiberId, p: Prog): (s': State)
    requires f in s.fibers
    ensures s'.place == s.place && s'.queue == s.queue
  {
    s.(fibers := s.fibers[f := s.fibers[f].(prog := p)])
  }

  function Spawn(s: State, n: nat, pin: Option<WorkerId>): State {
    var g := s.nextFiber;
    Push(s.(fibers := s.fibers[g := Fiber(INIT, Some(User(n)), Free, None, None, None)],
            nextFiber := s.nextFiber + 1), Wake(g), pin)
  }

  /** schedule(fiber) run by the timer callback of a sleeping fiber. */
  function FinishResume(s: State, g: FiberId, f: FiberId): State
    requires g in s.fibers && f in s.fibers
  {
    var s' := s.(fibers := s.fibers[f := s.fibers[f].(wake := None)]);
    Push(SetProg(s', g, Free), Wake(f), None)
  }

  function BeginCall(s: State, f: FiberId, k: Key, limited: bool, retries: bool): State
    requires f in s.fibers
  {
    SetProg(s.(calls := s.calls[s.nextCall := CallInfo(f, k, limited, retries, None, false, true, None, None, 0, 0, 0, false)],
               nextCall := s.nextCall + 1), f, InCall(s.nextCall, Trying))
  }

  function EndCall(s: State, f: FiberId, c: CallId, timedOut: bool): State
    requires f in s.fibers && c in s.calls
  {
    SetProg(s.(calls := s.calls[c := s.calls[c].(alive := false, timedOut := timedOut)]), f, Free)
  }

  function ArmCall(s: State, f: FiberId, c: CallId): State
    requires f in s.fibers && c in s.calls
  {
    if s.calls[c].limited then
      SetProg(Arm(s, Invoke(Timeout(c)), false)
              .(calls := s.calls[c := s.calls[c].(timer := Some(s.nextTimer),
                                                  ring := Some(Ticket(s.nextTicket, Invoke(Timeout(c)))))]),
              f, InCall(c, Registering))
    else
      SetProg(s, f, InCall(c, Registering))
  }

  function RegisterCall(s: State, f: FiberId, c: CallId): State
    requires f in s.fibers && c in s.calls
  {
    SetProg(Register(s, s.calls[c].key, Wake(f))
            .(calls := s.calls[c := s.calls[c].(ticket := Some(Ticket(s.nextTicket, Wake(f))),
                                                attempts := s.calls[c].attempts + 1)]),
            f, InCall(c, Suspending))
  }

  /** `if(timer) timer->cancel()`: it acts only if the timer still holds its callback. */
  function CancelCallTimer(s: State, c: CallId): (s': State)
    requires c in s.calls
    ensures s'.calls == s.calls && s'.fibers == s.fibers
  {
    var t := s.calls[c].timer;
    if t.Some? && t.value in s.timers then Disarm(s, t.value) else s
  }

  function FailCall(s: State, f: FiberId, c: CallId): State
    requires f in s.fibers && c in s.calls
  {
    EndCall(CancelCallTimer(s, c), f, c, false)
  }

  /** After the wake: give up with ETIMEDOUT, try again, or (connect) return. */
  function CheckCall(s: State, f: FiberId, c: CallId): State
    requires f in s.fibers && c in s.calls
  {
    if s.calls[c].flag then EndCall(s, f, c, true)
    else if s.calls[c].retries then SetProg(s, f, InCall(c, Trying))
    else EndCall(s, f, c, false)
  }

  function ExpireCall(s: State, g: FiberId, c: CallId): State
    requires g in s.fibers
  {
    if c in s.calls && s.calls[c].alive && !s.calls[c].flag then
      SetProg(s.(calls := s.calls[c := s.calls[c].(flag := true)]), g, Cancelling(c))
    else
      SetProg(s, g, Free)
  }

  function CancelCall(s: State, g: FiberId, c: CallId): State
    requires g in s.fibers && c in s.calls
  {
    var s' := SetProg(s, g, Free);
    if s.calls[c].key in s'.regs then Fire(s', s.calls[c].key) else s'
  }

  // ---------------------------------------------------------------- steps

  /** Who performs an operation: the fiber on a worker, in ordinary user code, or a thread
      outside the workers, which acts only before stop. */
  datatype Actor = On(worker: WorkerId) | Outside

  predicate Acts(s: State, a: Actor) {
    match a
    case On(w) => RunsProg(s, w, Free)
    case Outside => !s.stopping
  }

  datatype UserStep =
    | ScheduleCallback(a: Actor, n: nat, pin: Option<WorkerId>)
    | ScheduleFiber(a: Actor, f: FiberId, pin: Option<WorkerId>)
    | ScheduleNew(a: Actor, n: nat, pin: Option<WorkerId>)
    | AddEventCallback(w: WorkerId, k: Key, n: nat)
    | AddEventFiber(w: WorkerId, k: Key)
    | DelEvent(a: Actor, k: Key)
    | CancelEvent(a: Actor, k: Key)
    | AddTimer(a: Actor, n: nat, recurring: bool)
    | CancelTimer(a: Actor, t: TimerId)
    | Sleep(w: WorkerId)
    | Stop
    | YieldHold(w: WorkerId)
    | YieldReady(w: WorkerId)
    | Finish(w: WorkerId, threw: bool)

  /** Steps of a hooked call, and of the two timer callbacks the runtime itself creates. */
  datatype HookStep =
    | CallBegin(w: WorkerId, k: Key, limited: bool, retries: bool)
    | CallReturns(w: WorkerId, c: CallId)
    | CallBlocks(w: WorkerId, c: CallId)
    | CallArm(w: WorkerId, c: CallId)
    | CallRegister(w: WorkerId, c: CallId)
    | CallRegisterFails(w: WorkerId, c: CallId)
    | CallFail(w: WorkerId, c: CallId)
    | CallSuspend(w: WorkerId, c: CallId)
    | CallDisarm(w: WorkerId, c: CallId)
    | CallCheck(w: WorkerId, c: CallId)
    | ResumeSleeper(w: WorkerId, f: FiberId)
    | TimeoutCheck(w: WorkerId, c: CallId)
    | TimeoutCancel(w: WorkerId, c: CallId)

  /** Steps of the worker loop `run` and of the idle fiber. */
  datatype LoopStep =
    | Dequeue(w: WorkerId)
    | TakeUp(w: WorkerId)
    | EnterIdle(w: WorkerId)
    | Leave(w: WorkerId)
    | CheckStopping(w: WorkerId)
    | CollectTimer(w: WorkerId, t: TimerId)
    | SubmitCallback(w: WorkerId, tk: Ticket)
    | Dispatch(w: WorkerId, k: Key)
    | LeaveIdle(w: WorkerId)

  datatype Step = Code(u: UserStep) | Hook(h: HookStep) | Loop(l: LoopStep)

  /** IOManager::stopping(timeout), one step. */
  predicate MayStop(s: State) {
    s.timers == map[] && s.regs == map[] && s.stopping && s.queue == [] && s.active == 0
  }

  /** The idle fiber ends for good, or goes on to wait. */
  function Check(s: State, w: WorkerId): State
    requires w in s.workers
  {
    if MayStop(s) then Shift(s, w, s.workers[w].(pc := Head, idleDone := true), s.idle - 1)
    else Shift(s, w, s.workers[w].(pc := Polling({})), s.idle)
  }

  /** What user code may do.  That a callback does not finish while a wake of the fiber it runs
      in is outstanding is up to its author: RuntimeRuns.RecycledTooSoon shows what happens if
      it does. */
  predicate UserEnabled(s: State, u: UserStep) {
    match u
    case ScheduleCallback(a, n, pin) => Acts(s, a)
    case ScheduleFiber(a, f, pin) => Acts(s, a) && Wakeable(s.fibers, Wake(f))
    case ScheduleNew(a, n, pin) => Acts(s, a)
    case AddEventCallback(w, k, n) => RunsProg(s, w, Free) && k !in s.regs
    case AddEventFiber(w, k) => RunsProg(s, w, Free) && k !in s.regs && Wakeable(s.fibers, Wake(Cur(s, w)))
    case DelEvent(a, k) => Acts(s, a) && k in s.regs
    case CancelEvent(a, k) => Acts(s, a) && k in s.regs
    case AddTimer(a, n, recurring) => Acts(s, a)
    case CancelTimer(a, t) =>
      Acts(s, a) && t in s.timers && s.timers[t].ticket.task.Invoke? && s.timers[t].ticket.task.cb.User?
    case Sleep(w) => RunsProg(s, w, Free) && Wakeable(s.fibers, Wake(Cur(s, w)))
    case Stop => true
    case YieldHold(w) => RunsProg(s, w, Free)
    case YieldReady(w) => RunsProg(s, w, Free) && Wakeable(s.fibers, Wake(Cur(s, w)))
    case Finish(w, threw) =>
      RunsProg(s, w, Free) && (s.workers[w].pc.hosted ==> s.fibers[Cur(s, w)].wake == None)
  }

  function UserApply(s: State, u: UserStep): State
    requires UserEnabled(s, u)
  {
    match u
    case ScheduleCallback(a, n, pin) => Push(s, Invoke(User(n)), pin)
    case ScheduleFiber(a, f, pin) => Push(s, Wake(f), pin)
    case ScheduleNew(a, n, pin) => Spawn(s, n, pin)
    case AddEventCallback(w, k, n) => Register(s, k, Invoke(User(n)))
    case AddEventFiber(w, k) => Register(s, k, Wake(Cur(s, w)))
    case DelEvent(a, k) => Unregister(s, k)
    case CancelEvent(a, k) => Fire(s, k)
    case AddTimer(a, n, recurring) => Arm(s, Invoke(User(n)), recurring)
    case CancelTimer(a, t) => Disarm(s, t)
    case Sleep(w) => Arm(s, Invoke(Resume(Cur(s, w))), false)
    case Stop => s.(stopping := true)
    case YieldHold(w) => EndHold(s, w)
    case YieldReady(w) => Push(EndHold(s, w), Wake(Cur(s, w)), None)
    case Finish(w, threw) => EndFinish(s, w, threw)
  }

  predicate HookEnabled(s: State, h: HookStep) {
    match h
    case CallBegin(w, k, limited, retries) => RunsProg(s, w, Free) && Wakeable(s.fibers, Wake(Cur(s, w)))
    case CallReturns(w, c) => RunsCall(s, w, c, Trying)
    case CallBlocks(w, c) => RunsCall(s, w, c, Trying)
    case CallArm(w, c) => RunsCall(s, w, c, Arming)
    case CallRegister(w, c) => RunsCall(s, w, c, Registering) && s.calls[c].key !in s.regs
    case CallRegisterFails(w, c) => RunsCall(s, w, c, Registering)
    case CallFail(w, c) => RunsCall(s, w, c, Failing)
    case CallSuspend(w, c) => RunsCall(s, w, c, Suspending)
    case CallDisarm(w, c) => RunsCall(s, w, c, Woken)
    case CallCheck(w, c) => RunsCall(s, w, c, Checking)
    case ResumeSleeper(w, f) => RunsProg(s, w, Resuming(f)) && f in s.fibers
    case TimeoutCheck(w, c) => RunsProg(s, w, Expiring(c))
    case TimeoutCancel(w, c) => RunsProg(s, w, Cancelling(c)) && c in s.calls
  }

  function HookApply(s: State, h: HookStep): State
    requires HookEnabled(s, h)
  {
    match h
    case CallBegin(w, k, limited, retries) => BeginCall(s, Cur(s, w), k, limited, retries)
    case CallReturns(w, c) => EndCall(s, Cur(s, w), c, false)
    case CallBlocks(w, c) => SetProg(s, Cur(s, w), InCall(c, Arming))
    case CallArm(w, c) => ArmCall(s, Cur(s, w), c)
    case CallRegister(w, c) => RegisterCall(s, Cur(s, w), c)
    case CallRegisterFails(w, c) => SetProg(s, Cur(s, w), InCall(c, Failing))
    case CallFail(w, c) => FailCall(s, Cur(s, w), c)
    case CallSuspend(w, c) => EndHold(s, w)
    case CallDisarm(w, c) => SetProg(CancelCallTimer(s, c), Cur(s, w), InCall(c, Checking))
    case CallCheck(w, c) => CheckCall(s, Cur(s, w), c)
    case ResumeSleeper(w, f) => FinishResume(s, Cur(s, w), f)
    case TimeoutCheck(w, c) => ExpireCall(s, Cur(s, w), c)
    case TimeoutCancel(w, c) => CancelCall(s, Cur(s, w), c)
  }

  predicate LoopEnabled(s: State, l: LoopStep) {
    && l.w in s.workers
    && var pc := s.workers[l.w].pc;
    match l
    case Dequeue(w) => pc.Head?
    case TakeUp(w) => pc.Hand? && (pc.ticket.task.Wake? ==> pc.ticket.task.fiber in s.fibers)
    case EnterIdle(w) => pc.NoTask? && !s.workers[w].idleDone
    case Leave(w) => pc.NoTask? && s.workers[w].idleDone
    case CheckStopping(w) => pc.Idling?
    case CollectTimer(w, t) => pc.Polling? && t in s.timers
    case SubmitCallback(w, tk) => pc.Polling? && tk in pc.cbs
    case Dispatch(w, k) => pc.Polling? && k in s.regs
    case LeaveIdle(w) => pc == Polling({})
  }

  function LoopApply(s: State, l: LoopStep): State
    requires LoopEnabled(s, l)
  {
    match l
    case Dequeue(w) => TakeFirst(s, w)
    case TakeUp(w) => TakeUpHand(s, w)
    case EnterIdle(w) => Shift(s, w, s.workers[w].(pc := Idling), s.idle + 1)
    case Leave(w) => Shift(s, w, s.workers[w].(pc := Left), s.idle)
    case CheckStopping(w) => Check(s, w)
    case CollectTimer(w, t) => Collect(s, w, t)
    case SubmitCallback(w, tk) => Submit(s, w, tk)
    case Dispatch(w, k) => Fire(s, k)
    case LeaveIdle(w) => Shift(s, w, s.workers[w].(pc := Head), s.idle - 1)
  }

  predicate Enabled(s: State, st: Step) {
    match st
    case Code(u) => UserEnabled(s, u)
    case Hook(h) => HookEnabled(s, h)
    case Loop(l) => LoopEnabled(s, l)
  }

  function Apply(s: State, st: Step): State
    requires Enabled(s, st)
  {
    match st
    case Code(u) => UserApply(s, u)
    case Hook(h) => HookApply(s, h)
    case Loop(l) => LoopApply(s, l)
  }

  // ---------------------------------------------------------------- runs

  predicate Valid(s: State, steps: seq<Step>)
    decreases |steps|
  {
    steps == [] || (Enabled(s, steps[0]) && Valid(Apply(s, steps[0]), steps[1..]))
  }

  function After(s: State, steps: seq<Step>): State
    requires Valid(s, steps)
    decreases |steps|
  {
    if steps == [] then s else After(Apply(s, steps[0]), steps[1..])
  }
}
