/**
  An entry of the queue that is pinned to a worker which has left: nobody may take it, and no
  other worker can leave any more.
*/
module RuntimeShutdown {
  import opened Prelude
  import opened Runtime
  import opened RuntimeSteps
  import opened RuntimeHistory
  import opened RuntimeRuns

  /** The worker is about to leave or has left: it will take nothing from the queue any more. */
  predicate Committed(wk: Worker) {
    wk.pc.Left? || (wk.pc.NoTask? && wk.idleDone)
  }

  /** What a step may do to a worker: one that has committed itself stays so, it does so only
      when it finds nothing in the queue (`scans`), and the idle fiber of a worker ends only
      when the runtime may stop. */
  predicate WorkerGoesOn(s: State, workers': map<WorkerId, Worker>, w: WorkerId, scans: bool) {
    && workers'.Keys == s.workers.Keys && w in s.workers
    && (Committed(s.workers[w]) ==> Committed(workers'[w]))
    && (s.workers[w].pc.Left? ==> workers'[w].pc.Left?)
    && (Committed(workers'[w]) && !Committed(s.workers[w]) ==>
          scans && s.workers[w].idleDone && Scan(s.queue, w, s.fibers) == |s.queue|)
    && (workers'[w].idleDone ==> s.workers[w].idleDone || MayStop(s))
    && (workers'[w].pc.Left? ==> Committed(s.workers[w]))
  }

  lemma OneMoves(s: State, v: WorkerId, wk: Worker, w: WorkerId, scans: bool)
    requires w in s.workers && v in s.workers && !s.workers[v].pc.Left?
    requires Committed(s.workers[v]) ==> Committed(wk)
    requires v == w && wk.pc.NoTask? ==> scans && wk.idleDone == s.workers[v].idleDone && Scan(s.queue, v, s.fibers) == |s.queue|
    requires wk.idleDone ==> s.workers[v].idleDone || MayStop(s)
    requires wk.pc.Left? ==> Committed(s.workers[v])
    ensures WorkerGoesOn(s, s.workers[v := wk], w, scans)
  {
  }

  lemma UserWorkers(s: State, u: UserStep, w: WorkerId)
    requires UserEnabled(s, u) && w in s.workers
    ensures WorkerGoesOn(s, UserApply(s, u).workers, w, false)
  {
    match u
    case YieldHold(v) => OneMoves(s, v, EndHold(s, v).workers[v], w, false);
    case YieldReady(v) => OneMoves(s, v, EndHold(s, v).workers[v], w, false);
    case Finish(v, threw) => OneMoves(s, v, s.workers[v].(pc := Head), w, false);
    case _ =>
  }

  lemma HookWorkers(s: State, h: HookStep, w: WorkerId)
    requires HookEnabled(s, h) && w in s.workers
    ensures WorkerGoesOn(s, HookApply(s, h).workers, w, false)
  {
    var f := Cur(s, h.w);
    match h
    case CallBegin(v, k, limited, retries) => assert BeginCall(s, f, k, limited, retries).workers == s.workers;
    case CallReturns(v, c) => assert EndCall(s, f, c, false).workers == s.workers;
    case CallArm(v, c) => ArmWorkers(s, f, c);
    case CallRegister(v, c) => RegisterWorkers(s, f, c);
    case CallFail(v, c) => assert CancelCallTimer(s, c).workers == s.workers;
    case CallSuspend(v, c) => OneMoves(s, v, EndHold(s, v).workers[v], w, false);
    case CallDisarm(v, c) => assert CancelCallTimer(s, c).workers == s.workers;
    case CallCheck(v, c) => CheckWorkers(s, f, c);
    case ResumeSleeper(v, g) => assert FinishResume(s, f, g).workers == s.workers;
    case TimeoutCheck(v, c) => ExpireWorkers(s, f, c);
    case TimeoutCancel(v, c) => CancelWorkers(s, f, c);
    case _ =>
  }

  lemma ArmWorkers(s: State, f: FiberId, c: CallId)
    requires f in s.fibers && c in s.calls
    ensures ArmCall(s, f, c).workers == s.workers
  {
    assert Arm(s, Invoke(Timeout(c)), false).workers == s.workers;
  }

  lemma RegisterWorkers(s: State, f: FiberId, c: CallId)
    requires f in s.fibers && c in s.calls
    ensures RegisterCall(s, f, c).workers == s.workers
  {
  }

  lemma CheckWorkers(s: State, f: FiberId, c: CallId)
    requires f in s.fibers && c in s.calls
    ensures CheckCall(s, f, c).workers == s.workers
  {
    assert EndCall(s, f, c, true).workers == s.workers;
    assert EndCall(s, f, c, false).workers == s.workers;
  }

  lemma ExpireWorkers(s: State, g: FiberId, c: CallId)
    requires g in s.fibers
    ensures ExpireCall(s, g, c).workers == s.workers
  {
    if c in s.calls && s.calls[c].alive && !s.calls[c].flag {
      var s1 := s.(calls := s.calls[c := s.calls[c].(flag := true)]);
      assert ExpireCall(s, g, c) == SetProg(s1, g, Cancelling(c));
      ProgWorkers(s1, g, Cancelling(c));
    } else {
      ProgWorkers(s, g, Free);
    }
  }

  lemma ProgWorkers(s: State, f: FiberId, p: Prog)
    requires f in s.fibers
    ensures SetProg(s, f, p).workers == s.workers
  {
  }

  lemma CancelWorkers(s: State, g: FiberId, c: CallId)
    requires g in s.fibers && c in s.calls
    ensures CancelCall(s, g, c).workers == s.workers
  {
    var s1 := SetProg(s, g, Free);
    if s.calls[c].key in s.regs {
      assert CancelCall(s, g, c) == Fire(s1, s.calls[c].key);
    } else {
      assert CancelCall(s, g, c) == s1;
    }
  }

  lemma TakeWorkers(s: State, v: WorkerId, w: WorkerId)
    requires LoopEnabled(s, Dequeue(v)) && w in s.workers
    ensures WorkerGoesOn(s, TakeFirst(s, v).workers, w, v == w)
  {
    var i := Scan(s.queue, v, s.fibers);
    if i < |s.queue| {
      TakesEntry(s, v, i);
      OneMoves(s, v, s.workers[v].(pc := Hand(s.queue[i].ticket)), w, v == w);
    } else {
      FindsNothing(s, v);
      OneMoves(s, v, s.workers[v].(pc := NoTask), w, v == w);
    }
  }

  lemma TakesEntry(s: State, w: WorkerId, i: nat)
    requires w in s.workers && i == Scan(s.queue, w, s.fibers) < |s.queue|
    ensures TakeFirst(s, w).workers == s.workers[w := s.workers[w].(pc := Hand(s.queue[i].ticket))]
  {
    assert TakeFirst(s, w) == Take(s, w, i);
  }

  lemma FindsNothing(s: State, w: WorkerId)
    requires w in s.workers && Scan(s.queue, w, s.fibers) == |s.queue|
    ensures TakeFirst(s, w).queue == s.queue && TakeFirst(s, w).workers == s.workers[w := s.workers[w].(pc := NoTask)]
  {
    assert TakeFirst(s, w) == Shift(s, w, s.workers[w].(pc := NoTask), s.idle);
  }

  lemma TakeUpWorkers(s: State, v: WorkerId, w: WorkerId)
    requires LoopEnabled(s, TakeUp(v)) && w in s.workers
    ensures WorkerGoesOn(s, TakeUpHand(s, v).workers, w, false)
  {
    var t := s.workers[v].pc.ticket.task;
    if t.Invoke? {
      OneMoves(s, v, SwapInCallback(s, v).workers[v], w, false);
    } else if s.fibers[t.fiber].state.TERM? || s.fibers[t.fiber].state.EXCEPT? {
      DropWorkers(s, v);
      OneMoves(s, v, s.workers[v].(pc := Head), w, false);
    } else {
      SwapWorkers(s, v);
      OneMoves(s, v, s.workers[v].(pc := Run(t.fiber, false)), w, false);
    }
  }

  lemma DropWorkers(s: State, v: WorkerId)
    requires LoopEnabled(s, TakeUp(v)) && s.workers[v].pc.ticket.task.Wake?
    ensures Drop(s, v).workers == s.workers[v := s.workers[v].(pc := Head)]
  {
  }

  lemma SwapWorkers(s: State, v: WorkerId)
    requires LoopEnabled(s, TakeUp(v)) && s.workers[v].pc.ticket.task.Wake?
    ensures SwapIn(s, v).workers == s.workers[v := s.workers[v].(pc := Run(s.workers[v].pc.ticket.task.fiber, false))]
  {
  }

  lemma CheckStops(s: State, v: WorkerId, w: WorkerId)
    requires LoopEnabled(s, CheckStopping(v)) && w in s.workers
    ensures WorkerGoesOn(s, Check(s, v).workers, w, false)
  {
    if MayStop(s) {
      OneMoves(s, v, s.workers[v].(pc := Head, idleDone := true), w, false);
    } else {
      OneMoves(s, v, s.workers[v].(pc := Polling({})), w, false);
    }
  }

  lemma CollectWorkers(s: State, v: WorkerId, t: TimerId, w: WorkerId)
    requires LoopEnabled(s, CollectTimer(v, t)) && w in s.workers
    ensures WorkerGoesOn(s, Collect(s, v, t).workers, w, false)
  {
    var tk := CollectedWorker(s, v, t);
    OneMoves(s, v, s.workers[v].(pc := Polling(s.workers[v].pc.cbs + {tk})), w, false);
  }

  lemma CollectedWorker(s: State, v: WorkerId, t: TimerId) returns (tk: Ticket)
    requires LoopEnabled(s, CollectTimer(v, t))
    ensures Collect(s, v, t).workers == s.workers[v := s.workers[v].(pc := Polling(s.workers[v].pc.cbs + {tk}))]
  {
    if s.timers[t].recurring {
      tk := Ticket(s.nextTicket, s.timers[t].ticket.task);
    } else {
      tk := s.timers[t].ticket;
    }
  }

  lemma LoopWorkers(s: State, l: LoopStep, w: WorkerId)
    requires LoopEnabled(s, l) && w in s.workers
    ensures WorkerGoesOn(s, LoopApply(s, l).workers, w, l == Dequeue(w))
  {
    match l
    case Dequeue(v) => TakeWorkers(s, v, w);
    case TakeUp(v) => TakeUpWorkers(s, v, w);
    case CheckStopping(v) => CheckStops(s, v, w);
    case CollectTimer(v, t) => CollectWorkers(s, v, t, w);
    case SubmitCallback(v, tk) => OneMoves(s, v, Submit(s, v, tk).workers[v], w, false);
    case Dispatch(v, k) => assert Fire(s, k).workers == s.workers;
    case EnterIdle(v) => OneMoves(s, v, s.workers[v].(pc := Idling), w, false);
    case Leave(v) => OneMoves(s, v, s.workers[v].(pc := Left), w, false);
    case LeaveIdle(v) => OneMoves(s, v, s.workers[v].(pc := Head), w, false);
  }

  lemma StepWorker(s: State, st: Step, w: WorkerId)
    requires Enabled(s, st) && w in s.workers
    ensures WorkerGoesOn(s, Apply(s, st).workers, w, st == Loop(Dequeue(w)))
  {
    match st
    case Code(u) => UserWorkers(s, u, w);
    case Hook(h) => HookWorkers(s, h, w);
    case Loop(l) => LoopWorkers(s, l, w);
  }

  // ---------------------------------------------------------------- stranded entries

  /** Nobody serves this pin: it names no worker, or one that has committed itself. */
  predicate Unserved(workers: map<WorkerId, Worker>, pin: Option<WorkerId>) {
    pin.Some? && (pin.value in workers ==> Committed(workers[pin.value]))
  }

  /** An entry that nobody will ever take. */
  predicate Stranded(s: State, e: Entry) {
    e in s.queue && Unserved(s.workers, e.pin)
  }

  lemma UnservedStays(s: State, st: Step, pin: Option<WorkerId>)
    requires Enabled(s, st) && Unserved(s.workers, pin)
    ensures Unserved(Apply(s, st).workers, pin)
  {
    if pin.value in s.workers {
      StepWorker(s, st, pin.value);
    } else {
      StepWorkers(s, st);
    }
  }

  lemma StepWorkers(s: State, st: Step)
    requires Enabled(s, st)
    ensures Apply(s, st).workers.Keys == s.workers.Keys
  {
    if w :| w in s.workers {
      StepWorker(s, st, w);
    } else {
      NoWorkers(s, st.u);
    }
  }

  lemma NoWorkers(s: State, u: UserStep)
    requires UserEnabled(s, u) && forall w :: w !in s.workers
    ensures UserApply(s, u).workers == s.workers
  {
    match u
    case ScheduleCallback(a, n, pin) => PushWorkers(s, Invoke(User(n)), pin);
    case ScheduleFiber(a, f, pin) => PushWorkers(s, Wake(f), pin);
    case ScheduleNew(a, n, pin) => SpawnDoes(s, n, pin);
    case DelEvent(a, k) => assert Unregister(s, k).workers == s.workers;
    case CancelEvent(a, k) => assert Fire(s, k).workers == s.workers;
    case AddTimer(a, n, recurring) => assert Arm(s, Invoke(User(n)), recurring).workers == s.workers;
    case CancelTimer(a, t) => assert Disarm(s, t).workers == s.workers;
    case Stop =>
  }

  lemma PushWorkers(s: State, t: Task, pin: Option<WorkerId>)
    ensures Push(s, t, pin).workers == s.workers
    ensures Push(s, t, pin).queue == s.queue + [Entry(Ticket(s.nextTicket, t), pin)]
  {
  }

  lemma SpawnDoes(s: State, n: nat, pin: Option<WorkerId>)
    ensures Spawn(s, n, pin).workers == s.workers
    ensures Spawn(s, n, pin).queue == s.queue + [Entry(Ticket(s.nextTicket, Wake(s.nextFiber)), pin)]
  {
  }

  /** No step takes such an entry, and none lets the idle fiber of a worker end while it is
      there. */
  lemma StrandedStays(s: State, st: Step, e: Entry)
    requires Enabled(s, st) && Stranded(s, e)
    ensures Stranded(Apply(s, st), e)
    ensures forall v | v in s.workers && !s.workers[v].idleDone ::
              var s' := Apply(s, st); v in s'.workers && !s'.workers[v].idleDone
  {
    var s' := Apply(s, st);
    UnservedStays(s, st, e.pin);
    StepQueue(s, st);
    PinnedStays(s, s', PinOf(st), e);
    assert !MayStop(s);
    forall v | v in s.workers && !s.workers[v].idleDone ensures v in s'.workers && !s'.workers[v].idleDone {
      StepWorker(s, st, v);
    }
  }

  lemma PinnedStays(s: State, s': State, pin: Option<WorkerId>, e: Entry)
    requires QueueMoves(s, s', pin) && Stranded(s, e) && Unserved(s'.workers, e.pin)
    ensures e in s'.queue
  {
    var j :| 0 <= j < |s.queue| && s.queue[j] == e;
    if s'.queue == s.queue {
    } else if x: Entry :| x.pin == pin && s'.queue == s.queue + [x] {
      assert s'.queue[j] == e;
    } else {
      var v: WorkerId, i: nat :| Taken(s, s', v, i);
      assert e.pin != Some(v) && !Eligible(e, v, s.fibers);
      assert s'.queue[if j < i then j else j - 1] == e;
    }
  }

  /** So in every run the entry stays for ever, and no worker leaves whose idle fiber had not
      ended: the shutdown of the runtime never ends. */
  lemma {:induction false} NeverStops(s: State, steps: seq<Step>, e: Entry)
    requires Reachable(s) && Valid(s, steps) && Stranded(s, e)
    ensures Stranded(After(s, steps), e)
    ensures forall v | v in s.workers && !s.workers[v].idleDone ::
              var s' := After(s, steps); v in s'.workers && !s'.workers[v].idleDone && !s'.workers[v].pc.Left?
    decreases |steps|
  {
    if steps == [] {
      forall v | v in s.workers && !s.workers[v].idleDone ensures !s.workers[v].pc.Left? {
        NotDoneNotLeft(s, v);
      }
    } else {
      StrandedStays(s, steps[0], e);
      ReachableStep(s, steps[0]);
      NeverStops(Apply(s, steps[0]), steps[1..], e);
    }
  }

  lemma NotDoneNotLeft(s: State, v: WorkerId)
    requires Reachable(s) && v in s.workers && !s.workers[v].idleDone
    ensures !s.workers[v].pc.Left?
  {
    ReachableInv(s);
  }

  /** And not the idle fibers of all workers had ended: one of them stays. */
  lemma SomeoneStays(s: State, e: Entry)
    requires Reachable(s) && Stranded(s, e) && s.workers != map[]
    ensures exists v :: v in s.workers && !s.workers[v].idleDone
  {
    ReachableInv(s);
    assert s.queue != [];
  }

  // ---------------------------------------------------------------- exactly when an entry gets stranded

  ghost predicate Blocked(s: State) {
    exists e :: Stranded(s, e)
  }

  predicate HasPin(queue: seq<Entry>, w: WorkerId) {
    exists j :: 0 <= j < |queue| && queue[j].pin == Some(w)
  }

  /** The step strands an entry: it schedules one for a worker that does not exist or has
      committed itself, or a worker whose idle fiber has ended finds nothing in the queue,
      although an entry of its own is there, which it has passed because its fiber is executing. */
  predicate Strands(s: State, st: Step) {
    Unserved(s.workers, PinOf(st))
    || (st.Loop? && st.l.Dequeue? && st.l.w in s.workers && s.workers[st.l.w].idleDone
        && Scan(s.queue, st.l.w, s.fibers) == |s.queue| && HasPin(s.queue, st.l.w))
  }

  lemma SchedulesPin(s: State, st: Step)
    requires Enabled(s, st) && PinOf(st).Some?
    ensures exists e: Entry :: e.pin == PinOf(st) && Apply(s, st).queue == s.queue + [e]
  {
    match st
    case Code(ScheduleCallback(a, i, pin)) => PushWorkers(s, Invoke(User(i)), pin);
    case Code(ScheduleFiber(a, f, pin)) => PushWorkers(s, Wake(f), pin);
    case Code(ScheduleNew(a, i, pin)) => SpawnDoes(s, i, pin);
  }

  lemma ScheduledStranded(s: State, st: Step)
    requires Enabled(s, st) && Unserved(s.workers, PinOf(st))
    ensures Blocked(Apply(s, st))
  {
    var s' := Apply(s, st);
    SchedulesPin(s, st);
    UnservedStays(s, st, PinOf(st));
    var e: Entry :| e.pin == PinOf(st) && s'.queue == s.queue + [e];
    assert s'.queue[|s.queue|] == e;
    assert Stranded(s', e);
  }

  lemma PassedStranded(s: State, w: WorkerId)
    requires Enabled(s, Loop(Dequeue(w))) && s.workers[w].idleDone && Scan(s.queue, w, s.fibers) == |s.queue| && HasPin(s.queue, w)
    ensures Blocked(Apply(s, Loop(Dequeue(w))))
  {
    FindsNothing(s, w);
    var j :| 0 <= j < |s.queue| && s.queue[j].pin == Some(w);
    assert Apply(s, Loop(Dequeue(w))) == TakeFirst(s, w);
    assert Stranded(TakeFirst(s, w), s.queue[j]);
  }

  lemma NewEntries(s: State, s': State, pin: Option<WorkerId>, e: Entry)
    requires QueueMoves(s, s', pin) && e in s'.queue
    ensures e in s.queue || e.pin == pin
  {
    var j :| 0 <= j < |s'.queue| && s'.queue[j] == e;
    if s'.queue == s.queue {
    } else if x: Entry :| x.pin == pin && s'.queue == s.queue + [x] {
      assert j < |s.queue| ==> s.queue[j] == e;
    } else {
      var v: WorkerId, i: nat :| Taken(s, s', v, i);
      assert s.queue[if j < i then j else j + 1] == e;
    }
  }

  lemma StrandedBy(s: State, st: Step, e: Entry)
    requires Enabled(s, st) && Stranded(Apply(s, st), e) && !Stranded(s, e)
    ensures Strands(s, st)
  {
    var s' := Apply(s, st);
    StepWorkers(s, st);
    StepQueue(s, st);
    NewEntries(s, s', PinOf(st), e);
    if e.pin.value in s.workers && !Unserved(s.workers, e.pin) {
      StepWorker(s, st, e.pin.value);
      FindsNothing(s, e.pin.value);
      var j :| 0 <= j < |s'.queue| && s'.queue[j] == e;
      assert s.queue[j].pin == e.pin;
    }
  }

  /** An entry is stranded after a step if and only if one was before, or the step strands one. */
  lemma BlockedStep(s: State, st: Step)
    requires Enabled(s, st)
    ensures Blocked(Apply(s, st)) <==> Blocked(s) || Strands(s, st)
  {
    if e :| Stranded(s, e) {
      StrandedStays(s, st, e);
    } else if Unserved(s.workers, PinOf(st)) {
      ScheduledStranded(s, st);
    } else if Strands(s, st) {
      PassedStranded(s, st.l.w);
    } else if e :| Stranded(Apply(s, st), e) {
      StrandedBy(s, st, e);
    }
  }

  predicate StrandsOnce(s: State, steps: seq<Step>)
    requires Valid(s, steps)
    decreases |steps|
  {
    steps != [] && (Strands(s, steps[0]) || StrandsOnce(Apply(s, steps[0]), steps[1..]))
  }

  lemma {:induction false} BlockedAfter(s: State, steps: seq<Step>)
    requires Valid(s, steps)
    ensures Blocked(After(s, steps)) <==> Blocked(s) || StrandsOnce(s, steps)
    decreases |steps|
  {
    if steps != [] {
      BlockedStep(s, steps[0]);
      BlockedAfter(Apply(s, steps[0]), steps[1..]);
    }
  }

  /** So from the start on, an entry is stranded in the end if and only if some step of the
      run has stranded one. */
  lemma BlockedIff(ws: set<WorkerId>, steps: seq<Step>)
    requires Valid(Init(ws), steps)
    ensures Blocked(After(Init(ws), steps)) <==> StrandsOnce(Init(ws), steps)
  {
    BlockedAfter(Init(ws), steps);
  }

  // ---------------------------------------------------------------- what callers can do about it

  /** The pin is none, or a worker whose idle fiber has not ended. */
  predicate Served(workers: map<WorkerId, Worker>, pin: Option<WorkerId>) {
    pin.Some? ==> pin.value in workers && !workers[pin.value].idleDone
  }

  ghost predicate AllServed(s: State) {
    forall e | e in s.queue :: Served(s.workers, e.pin)
  }

  lemma UserIdle(s: State, u: UserStep, w: WorkerId)
    requires UserEnabled(s, u) && w in s.workers
    ensures var s' := UserApply(s, u); w in s'.workers && s'.workers[w].idleDone == s.workers[w].idleDone
  {
    match u
    case YieldReady(v) => assert EndHold(s, v).workers[w].idleDone == s.workers[w].idleDone;
    case _ =>
  }

  /** While an idle fiber ends the queue is empty, and nothing is scheduled. */
  lemma ServedStep(s: State, st: Step)
    requires Enabled(s, st) && AllServed(s) && Served(s.workers, PinOf(st))
    ensures AllServed(Apply(s, st))
  {
    var s' := Apply(s, st);
    StepQueue(s, st);
    forall e | e in s'.queue ensures Served(s'.workers, e.pin) {
      NewEntries(s, s', PinOf(st), e);
      if e.pin.Some? {
        StepWorker(s, st, e.pin.value);
        if st.Code? {
          UserIdle(s, st.u, e.pin.value);
        }
      }
    }
  }

  predicate PinsServed(s: State, steps: seq<Step>)
    requires Valid(s, steps)
    decreases |steps|
  {
    steps == [] || (Served(s.workers, PinOf(steps[0])) && PinsServed(Apply(s, steps[0]), steps[1..]))
  }

  /** In every run in which each schedule call asks for no thread, or for a worker whose idle
      fiber has not ended at the time of the call, no entry of the queue is ever pinned to any
      other, and none is ever stranded. */
  lemma {:induction false} ServedRun(s: State, steps: seq<Step>)
    requires Reachable(s) && Valid(s, steps) && AllServed(s) && PinsServed(s, steps)
    ensures AllServed(After(s, steps)) && !Blocked(After(s, steps))
    decreases |steps|
  {
    if steps != [] {
      ServedStep(s, steps[0]);
      ReachableStep(s, steps[0]);
      ServedRun(Apply(s, steps[0]), steps[1..]);
    } else {
      forall e | e in s.queue && e.pin.Some? ensures !Unserved(s.workers, e.pin) {
        NotDoneNotLeft(s, e.pin.value);
      }
    }
  }

  lemma NeverBlocked(ws: set<WorkerId>, steps: seq<Step>)
    requires Valid(Init(ws), steps) && PinsServed(Init(ws), steps)
    ensures AllServed(After(Init(ws), steps)) && !Blocked(After(Init(ws), steps))
  {
    assert Valid(Init(ws), []) && After(Init(ws), []) == Init(ws);
    ServedRun(Init(ws), steps);
  }

  // ---------------------------------------------------------------- such a run

  const T0: Ticket := Ticket(0, Invoke(User(0)))
  const T1: Ticket := Ticket(1, Invoke(User(1)))

  /** Stop has been requested, no task is being worked on, and a timer is the last work. */
  ghost predicate Ending(s: State, w0: Worker, w1: Worker, queue: seq<Entry>, timers: map<TimerId, Timer>) {
    && Shows(s, View(map[0 := w0, 1 := w1], map[], map[], queue, map[], timers, 1, 0, 1, 0))
    && s.stopping && s.active == 0
  }

  const LastTimer: map<TimerId, Timer> := map[0 := Timer(T0, false)]

  lemma TimerAdded() returns (s: State)
    ensures Shows(s, View(map[0 := Bare(Head), 1 := Bare(Head)], map[], map[], [], map[], LastTimer, 1, 0, 1, 0)) && s.active == 0
  {
    var s0 := Init({0, 1});
    assert Valid(s0, []) && After(s0, []) == s0;
    s := Advance(s0, Code(AddTimer(Outside, 0, false)), ViewOf(s0).(timers := LastTimer, nextTicket := 1, nextTimer := 1));
  }

  lemma OneTimer() returns (s: State)
    ensures Ending(s, Bare(Head), Bare(Head), [], LastTimer)
  {
    var s0 := TimerAdded();
    s := Advance(s0, Code(Stop), ViewOf(s0));
  }

  lemma FirstFindsNothing() returns (s: State)
    ensures Ending(s, Bare(Head), Bare(NoTask), [], LastTimer)
  {
    var s0 := OneTimer();
    s := Advance(s0, Loop(Dequeue(1)), ViewOf(s0).(workers := map[0 := Bare(Head), 1 := Bare(NoTask)]));
  }

  lemma FirstIdles() returns (s: State)
    ensures Ending(s, Bare(Head), Bare(Idling), [], LastTimer)
  {
    var s0 := FirstFindsNothing();
    s := Advance(s0, Loop(EnterIdle(1)), ViewOf(s0).(workers := map[0 := Bare(Head), 1 := Bare(Idling)]));
  }

  lemma FirstWaits() returns (s: State)
    ensures Ending(s, Bare(Head), Bare(Polling({})), [], LastTimer)
  {
    var s0 := FirstIdles();
    assert 0 in s0.timers;
    s := Advance(s0, Loop(CheckStopping(1)), ViewOf(s0).(workers := map[0 := Bare(Head), 1 := Bare(Polling({}))]));
  }

  lemma FirstCollects() returns (s: State)
    ensures Ending(s, Bare(Head), Bare(Polling({T0})), [], map[])
  {
    var s0 := FirstWaits();
    var none: set<Ticket> := {};
    assert none + {T0} == {T0};
    s := Advance(s0, Loop(CollectTimer(1, 0)), ViewOf(s0).(workers := map[0 := Bare(Head), 1 := Bare(Polling({T0}))], timers := map[]));
  }

  lemma SecondFindsNothing() returns (s: State)
    ensures Ending(s, Bare(NoTask), Bare(Polling({T0})), [], map[])
  {
    var s0 := FirstCollects();
    s := Advance(s0, Loop(Dequeue(0)), ViewOf(s0).(workers := map[0 := Bare(NoTask), 1 := Bare(Polling({T0}))]));
  }

  lemma SecondIdles() returns (s: State)
    ensures Ending(s, Bare(Idling), Bare(Polling({T0})), [], map[])
  {
    var s0 := SecondFindsNothing();
    s := Advance(s0, Loop(EnterIdle(0)), ViewOf(s0).(workers := map[0 := Bare(Idling), 1 := Bare(Polling({T0}))]));
  }

  /** The worker whose idle fiber has ended. */
  function DoneAt(pc: Pc): Worker {
    Worker(pc, None, true)
  }

  lemma SecondMayStop() returns (s: State)
    ensures Ending(s, DoneAt(Head), Bare(Polling({T0})), [], map[])
  {
    var s0 := SecondIdles();
    s := Advance(s0, Loop(CheckStopping(0)), ViewOf(s0).(workers := map[0 := DoneAt(Head), 1 := Bare(Polling({T0}))]));
  }

  lemma SecondIsThrough() returns (s: State)
    ensures Ending(s, DoneAt(NoTask), Bare(Polling({T0})), [], map[])
  {
    var s0 := SecondMayStop();
    s := Advance(s0, Loop(Dequeue(0)), ViewOf(s0).(workers := map[0 := DoneAt(NoTask), 1 := Bare(Polling({T0}))]));
  }

  lemma SecondLeaves() returns (s: State)
    ensures Ending(s, DoneAt(Left), Bare(Polling({T0})), [], map[])
  {
    var s0 := SecondIsThrough();
    s := Advance(s0, Loop(Leave(0)), ViewOf(s0).(workers := map[0 := DoneAt(Left), 1 := Bare(Polling({T0}))]));
  }

  lemma FirstSubmits() returns (s: State)
    ensures Ending(s, DoneAt(Left), Bare(Polling({})), [Entry(T0, None)], map[])
  {
    var s0 := SecondLeaves();
    var none: set<Ticket> := {};
    assert {T0} - {T0} == none;
    s := Advance(s0, Loop(SubmitCallback(1, T0)),
                 ViewOf(s0).(workers := map[0 := DoneAt(Left), 1 := Bare(Polling({}))], queue := [Entry(T0, None)]));
  }

  lemma FirstLeavesIdle() returns (s: State)
    ensures Ending(s, DoneAt(Left), Bare(Head), [Entry(T0, None)], map[])
  {
    var s0 := FirstSubmits();
    s := Advance(s0, Loop(LeaveIdle(1)), ViewOf(s0).(workers := map[0 := DoneAt(Left), 1 := Bare(Head)]));
  }

  lemma FirstTakes() returns (s: State)
    ensures Shows(s, View(map[0 := DoneAt(Left), 1 := Bare(Hand(T0))], map[], map[], [], map[], map[], 1, 0, 1, 0))
  {
    var s0 := FirstLeavesIdle();
    assert Scan(s0.queue, 1, s0.fibers) == 0;
    s := Advance(s0, Loop(Dequeue(1)), ViewOf(s0).(workers := map[0 := DoneAt(Left), 1 := Bare(Hand(T0))], queue := []));
  }

  const Handler: Fiber := Fiber(EXEC(1), Some(User(0)), Free, Some(T0), None, Some(1))

  lemma FirstRuns() returns (s: State)
    ensures Shows(s, View(map[0 := DoneAt(Left), 1 := Worker(Run(0, true), Some(0), false)], map[0 := Handler], map[],
                          [], map[], map[], 1, 1, 1, 0))
  {
    s := FirstTakes();
    s := Advance(s, Loop(TakeUp(1)),
                 View(map[0 := DoneAt(Left), 1 := Worker(Run(0, true), Some(0), false)], map[0 := Handler], map[],
                      [], map[], map[], 1, 1, 1, 0));
  }

  /** It happens: worker 0 leaves while worker 1 has the callback of the last timer in hand,
      and the callback then schedules a task for worker 0. */
  lemma CanBeStranded() returns (s: State)
    ensures Reachable(s) && Stranded(s, Entry(T1, Some(0))) && s.workers.Keys == {0, 1} && !s.workers[1].idleDone
  {
    s := FirstRuns();
    s := Advance(s, Code(ScheduleCallback(On(1), 1, Some(0))),
                 ViewOf(s).(queue := [Entry(T1, Some(0))], nextTicket := 2));
  }
}
