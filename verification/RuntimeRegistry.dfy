/**
  The registry of the step system is the one of class IOManager: every step that registers,
  deletes or triggers is one call of its operations, which then meets no failing assertion.
*/
module RuntimeRegistry {
  import opened Prelude
  import opened Runtime
  import IO = IOManager

  /** What a registration is for the class: the task without its serial number. */
  function Tasks(regs: map<Key, Ticket>): map<Key, Task> {
    map k | k in regs :: regs[k].task
  }

  /** The call of an operation of IOManager that a step makes. */
  datatype Call = Adds(k: Key, t: Task) | Deletes(k: Key) | CancelsEvent(k: Key) | Dispatches(k: Key) | NoCall

  function CallOf(s: State, st: Step): Call
    requires Enabled(s, st)
  {
    match st
    case Code(AddEventCallback(w, k, n)) => Adds(k, Invoke(User(n)))
    case Code(AddEventFiber(w, k)) => Adds(k, Wake(Cur(s, w)))
    case Code(DelEvent(a, k)) => Deletes(k)
    case Code(CancelEvent(a, k)) => CancelsEvent(k)
    case Hook(CallRegister(w, c)) => Adds(s.calls[c].key, Wake(Cur(s, w)))
    case Hook(TimeoutCancel(w, c)) => CancelsEvent(s.calls[c].key)
    case Loop(Dispatch(w, k)) => Dispatches(k)
    case _ => NoCall
  }

  function After1(regs: map<Key, Task>, call: Call): map<Key, Task> {
    match call
    case Adds(k, t) => regs[k := t]
    case Deletes(k) => regs - {k}
    case CancelsEvent(k) => regs - {k}
    case Dispatches(k) => regs - {k}
    case NoCall => regs
  }

  /** The task the call hands to schedule. */
  function Scheduled1(regs: map<Key, Task>, call: Call): seq<Task> {
    match call
    case CancelsEvent(k) => if k in regs then [regs[k]] else []
    case Dispatches(k) => if k in regs then [regs[k]] else []
    case _ => []
  }

  lemma UserRegs(s: State, u: UserStep)
    requires UserEnabled(s, u)
    ensures Tasks(UserApply(s, u).regs) == After1(Tasks(s.regs), CallOf(s, Code(u)))
  {
    match u
    case AddEventCallback(w, k, n) => RegisterTask(s, k, Invoke(User(n)));
    case AddEventFiber(w, k) => RegisterTask(s, k, Wake(Cur(s, w)));
    case DelEvent(a, k) => assert Unregister(s, k).regs == s.regs - {k};
    case CancelEvent(a, k) => assert Fire(s, k).regs == s.regs - {k};
    case _ => UserNoRegs(s, u);
  }

  lemma RegisterTask(s: State, k: Key, t: Task)
    ensures Tasks(Register(s, k, t).regs) == Tasks(s.regs)[k := t]
  {
  }

  lemma UserNoRegs(s: State, u: UserStep)
    requires UserEnabled(s, u) && CallOf(s, Code(u)).NoCall?
    ensures UserApply(s, u).regs == s.regs
  {
    match u
    case YieldReady(w) => assert EndHold(s, w).regs == s.regs;
    case _ =>
  }

  lemma RegisterRegs(s: State, f: FiberId, c: CallId)
    requires f in s.fibers && c in s.calls
    ensures Tasks(RegisterCall(s, f, c).regs) == Tasks(s.regs)[s.calls[c].key := Wake(f)]
  {
    assert Register(s, s.calls[c].key, Wake(f)).regs == s.regs[s.calls[c].key := Ticket(s.nextTicket, Wake(f))];
  }

  lemma CancelRegs(s: State, g: FiberId, c: CallId)
    requires g in s.fibers && c in s.calls
    ensures Tasks(CancelCall(s, g, c).regs) == Tasks(s.regs) - {s.calls[c].key}
  {
    var s1, k := SetProg(s, g, Free), s.calls[c].key;
    if k in s.regs {
      assert CancelCall(s, g, c) == Fire(s1, k);
    } else {
      assert CancelCall(s, g, c) == s1;
      assert s1.regs == s.regs - {k};
    }
  }

  lemma EndRegs(s: State, f: FiberId, c: CallId, timedOut: bool)
    requires f in s.fibers && c in s.calls
    ensures EndCall(s, f, c, timedOut).regs == s.regs
  {
  }

  lemma CheckRegs(s: State, f: FiberId, c: CallId)
    requires f in s.fibers && c in s.calls
    ensures CheckCall(s, f, c).regs == s.regs
  {
    EndRegs(s, f, c, true);
    EndRegs(s, f, c, false);
  }

  lemma ExpireRegs(s: State, g: FiberId, c: CallId)
    requires g in s.fibers
    ensures ExpireCall(s, g, c).regs == s.regs
  {
    if c in s.calls && s.calls[c].alive && !s.calls[c].flag {
      var s1 := s.(calls := s.calls[c := s.calls[c].(flag := true)]);
      assert ExpireCall(s, g, c) == SetProg(s1, g, Cancelling(c));
      ProgRegs(s1, g, Cancelling(c));
    } else {
      ProgRegs(s, g, Free);
    }
  }

  lemma ProgRegs(s: State, f: FiberId, p: Prog)
    requires f in s.fibers
    ensures SetProg(s, f, p).regs == s.regs
  {
  }

  lemma ArmRegs(s: State, f: FiberId, c: CallId)
    requires f in s.fibers && c in s.calls
    ensures ArmCall(s, f, c).regs == s.regs
  {
    assert Arm(s, Invoke(Timeout(c)), false).regs == s.regs;
  }

  lemma HookRegs(s: State, h: HookStep)
    requires HookEnabled(s, h)
    ensures Tasks(HookApply(s, h).regs) == After1(Tasks(s.regs), CallOf(s, Hook(h)))
  {
    match h
    case CallRegister(w, c) => RegisterRegs(s, Cur(s, w), c);
    case TimeoutCancel(w, c) => CancelRegs(s, Cur(s, w), c);
    case _ => HookNoRegs(s, h);
  }

  lemma HookNoRegs(s: State, h: HookStep)
    requires HookEnabled(s, h) && !h.CallRegister? && !h.TimeoutCancel?
    ensures HookApply(s, h).regs == s.regs
  {
    match h
    case CallBegin(w, k, limited, retries) => assert BeginCall(s, Cur(s, w), k, limited, retries).regs == s.regs;
    case CallReturns(w, c) => EndRegs(s, Cur(s, w), c, false);
    case CallArm(w, c) => ArmRegs(s, Cur(s, w), c);
    case CallFail(w, c) => EndRegs(CancelCallTimer(s, c), Cur(s, w), c, false);
    case CallDisarm(w, c) => assert CancelCallTimer(s, c).regs == s.regs;
    case CallCheck(w, c) => CheckRegs(s, Cur(s, w), c);
    case ResumeSleeper(w, f) => assert FinishResume(s, Cur(s, w), f).regs == s.regs;
    case TimeoutCheck(w, c) => ExpireRegs(s, Cur(s, w), c);
    case _ =>
  }

  lemma TakeRegs(s: State, w: WorkerId)
    requires w in s.workers
    ensures TakeFirst(s, w).regs == s.regs
  {
    var i := Scan(s.queue, w, s.fibers);
    if i < |s.queue| {
      assert Take(s, w, i).regs == s.regs;
    } else {
      assert Shift(s, w, s.workers[w].(pc := NoTask), s.idle).regs == s.regs;
    }
  }

  lemma TakeUpRegs(s: State, w: WorkerId)
    requires LoopEnabled(s, TakeUp(w))
    ensures TakeUpHand(s, w).regs == s.regs
  {
    var t := s.workers[w].pc.ticket.task;
    if t.Invoke? {
      HostRegs(s, w);
    } else if s.fibers[t.fiber].state.TERM? || s.fibers[t.fiber].state.EXCEPT? {
      DropRegs(s, w);
    } else {
      SwapRegs(s, w);
    }
  }

  lemma HostRegs(s: State, w: WorkerId)
    requires LoopEnabled(s, TakeUp(w)) && s.workers[w].pc.ticket.task.Invoke?
    ensures SwapInCallback(s, w).regs == s.regs
  {
  }

  lemma DropRegs(s: State, w: WorkerId)
    requires LoopEnabled(s, TakeUp(w))
    ensures Drop(s, w).regs == s.regs
  {
  }

  lemma SwapRegs(s: State, w: WorkerId)
    requires LoopEnabled(s, TakeUp(w)) && s.workers[w].pc.ticket.task.Wake?
    ensures SwapIn(s, w).regs == s.regs
  {
  }

  lemma CheckStopRegs(s: State, w: WorkerId)
    requires w in s.workers
    ensures Check(s, w).regs == s.regs
  {
    if MayStop(s) {
      assert Shift(s, w, s.workers[w].(pc := Head, idleDone := true), s.idle - 1).regs == s.regs;
    } else {
      assert Shift(s, w, s.workers[w].(pc := Polling({})), s.idle).regs == s.regs;
    }
  }

  lemma CollectRegs(s: State, w: WorkerId, t: TimerId)
    requires LoopEnabled(s, CollectTimer(w, t))
    ensures Collect(s, w, t).regs == s.regs
  {
    if s.timers[t].recurring {
      assert Collect(s, w, t).regs == s.regs;
    } else {
      assert Collect(s, w, t).regs == s.regs;
    }
  }

  lemma LoopRegs(s: State, l: LoopStep)
    requires LoopEnabled(s, l)
    ensures Tasks(LoopApply(s, l).regs) == After1(Tasks(s.regs), CallOf(s, Loop(l)))
  {
    match l
    case Dequeue(w) => TakeRegs(s, w);
    case TakeUp(w) => TakeUpRegs(s, w);
    case CheckStopping(w) => CheckStopRegs(s, w);
    case CollectTimer(w, t) => CollectRegs(s, w, t);
    case SubmitCallback(w, tk) => assert Submit(s, w, tk).regs == s.regs;
    case Dispatch(w, k) => assert Fire(s, k).regs == s.regs - {k};
    case _ =>
  }

  /** A step changes the registrations as its call does. */
  lemma StepRegs(s: State, st: Step)
    requires Enabled(s, st)
    ensures Tasks(Apply(s, st).regs) == After1(Tasks(s.regs), CallOf(s, st))
  {
    match st
    case Code(u) => UserRegs(s, u);
    case Hook(h) => HookRegs(s, h);
    case Loop(l) => LoopRegs(s, l);
  }

  lemma CallAllowed(s: State, st: Step)
    requires Enabled(s, st)
    ensures CallOf(s, st).Adds? ==> CallOf(s, st).k !in s.regs
    ensures CallOf(s, st).Deletes? || CallOf(s, st).Dispatches? ==> CallOf(s, st).k in s.regs
  {
  }

  /** The contexts of the manager are those it had, or new ones. */
  twostate predicate Grown(iom: IO.IOManager)
    reads iom
  {
    && |iom.contexts| >= |old(iom.contexts)|
    && forall i | 0 <= i < |iom.contexts| ::
         if i < |old(iom.contexts)| then iom.contexts[i] == old(iom.contexts)[i] else fresh(iom.contexts[i])
  }

  /** The call itself.  Its operation succeeds, so no assertion of it has failed. */
  method Perform(iom: IO.IOManager, call: Call) returns (ok: bool)
    requires iom.Valid()
    requires Allowed1(iom.regs, call)
    modifies iom, iom.contexts
    ensures iom.Valid() && Grown(iom)
    ensures iom.regs == After1(old(iom.regs), call) && iom.queue == old(iom.queue) + Scheduled1(old(iom.regs), call)
    ensures ok <==> call.CancelsEvent? ==> call.k in old(iom.regs)
  {
    ok := true;
    match call {
      case Adds(k, t) => ok := AddTask(iom, k, t);
      case Deletes(k) => ok := iom.DelEvent(k.fd, k.event, false);
      case CancelsEvent(k) => ok := iom.CancelEvent(k.fd, k.event, false);
      case Dispatches(k) => ok := Report(iom, k);
      case NoCall =>
    }
  }

  method AddTask(iom: IO.IOManager, k: Key, t: Task) returns (ok: bool)
    requires iom.Valid() && k !in iom.regs
    modifies iom, iom.contexts
    ensures iom.Valid() && Grown(iom) && ok
    ensures iom.regs == old(iom.regs)[k := t] && iom.queue == old(iom.queue)
  {
    var rt := iom.AddEvent(k.fd, k.event, if t.Invoke? then Some(t.cb) else None, if t.Wake? then t.fiber else 0, false);
    ok := rt == 0;
  }

  /** A report of just this event, dispatched while it is registered. */
  method Report(iom: IO.IOManager, k: Key) returns (ok: bool)
    requires iom.Valid() && k in iom.regs
    modifies iom, iom.contexts
    ensures iom.Valid() && Grown(iom) && ok
    ensures iom.regs == old(iom.regs) - {k} && iom.queue == old(iom.queue) + [old(iom.regs)[k]]
  {
    ReportMask(iom.regs, k);
    var r := iom.Dispatch(k.fd, IO.Only(k.event), false, false);
    ok := r == IO.Handled(true);
  }

  lemma ReportMask(regs: map<Key, Task>, k: Key)
    requires k in regs
    ensures IO.Only(k.event).Within(IO.Mask(regs, k.fd)) && IO.Only(k.event).And(IO.Mask(regs, k.fd)) != IO.NoEvents
    ensures IO.Without(regs, k.fd, IO.Only(k.event)) == regs - {k}
    ensures IO.TasksOf(regs, k.fd, IO.Only(k.event)) == [regs[k]]
  {
  }

  predicate Allowed1(regs: map<Key, Task>, call: Call) {
    match call
    case Adds(k, t) => k !in regs
    case Deletes(k) => k in regs
    case Dispatches(k) => k in regs
    case _ => true
  }

  /** The calls of a run, one by one. */
  predicate Allowed(regs: map<Key, Task>, calls: seq<Call>)
    decreases |calls|
  {
    calls == [] || (Allowed1(regs, calls[0]) && Allowed(After1(regs, calls[0]), calls[1..]))
  }

  function Finally(regs: map<Key, Task>, calls: seq<Call>): map<Key, Task>
    decreases |calls|
  {
    if calls == [] then regs else Finally(After1(regs, calls[0]), calls[1..])
  }

  function Scheduled(regs: map<Key, Task>, calls: seq<Call>): seq<Task>
    decreases |calls|
  {
    if calls == [] then [] else Scheduled1(regs, calls[0]) + Scheduled(After1(regs, calls[0]), calls[1..])
  }

  method PerformAll(iom: IO.IOManager, calls: seq<Call>)
    requires iom.Valid() && Allowed(iom.regs, calls)
    modifies iom, iom.contexts
    ensures iom.Valid()
    ensures iom.regs == Finally(old(iom.regs), calls) && iom.queue == old(iom.queue) + Scheduled(old(iom.regs), calls)
  {
    var i := 0;
    ghost var done: seq<Task> := [];
    assert calls[0..] == calls;
    while i < |calls|
      invariant i <= |calls| && iom.Valid() && Grown(iom)
      invariant Performed(old(iom.regs), calls, i, iom.regs, done) && iom.queue == old(iom.queue) + done
    {
      ghost var more := Scheduled1(iom.regs, calls[i]);
      PerformedNext(old(iom.regs), calls, i, iom.regs, done);
      var ok := Perform(iom, calls[i]);
      Assoc(old(iom.queue), done, more);
      done, i := done + more, i + 1;
    }
    assert calls[i..] == [];
  }

  lemma Assoc(a: seq<Task>, b: seq<Task>, c: seq<Task>)
    ensures (a + b) + c == a + (b + c)
  {
  }

  /** Where the first i calls lead, and what they schedule. */
  predicate Performed(regs0: map<Key, Task>, calls: seq<Call>, i: nat, regs: map<Key, Task>, done: seq<Task>)
    requires i <= |calls|
  {
    && Allowed(regs, calls[i..])
    && Finally(regs0, calls) == Finally(regs, calls[i..])
    && Scheduled(regs0, calls) == done + Scheduled(regs, calls[i..])
  }

  lemma PerformedNext(regs0: map<Key, Task>, calls: seq<Call>, i: nat, regs: map<Key, Task>, done: seq<Task>)
    requires i < |calls| && Performed(regs0, calls, i, regs, done)
    ensures Allowed1(regs, calls[i])
    ensures Performed(regs0, calls, i + 1, After1(regs, calls[i]), done + Scheduled1(regs, calls[i]))
  {
    assert calls[i..][1..] == calls[i + 1..];
  }

  function CallsOf(s: State, steps: seq<Step>): (calls: seq<Call>)
    requires Valid(s, steps)
    decreases |steps|
  {
    if steps == [] then [] else [CallOf(s, steps[0])] + CallsOf(Apply(s, steps[0]), steps[1..])
  }

  lemma StepCall(s: State, st: Step)
    requires Enabled(s, st)
    ensures Allowed1(Tasks(s.regs), CallOf(s, st)) && Tasks(Apply(s, st).regs) == After1(Tasks(s.regs), CallOf(s, st))
  {
    CallAllowed(s, st);
    StepRegs(s, st);
  }

  /** In every run each call of addEvent finds the event unregistered, and each delEvent and
      dispatch finds it registered; and the calls lead to the registrations of the run. */
  lemma {:induction false} RunCalls(s: State, steps: seq<Step>)
    requires Valid(s, steps)
    ensures Allowed(Tasks(s.regs), CallsOf(s, steps))
    ensures Finally(Tasks(s.regs), CallsOf(s, steps)) == Tasks(After(s, steps).regs)
    decreases |steps|
  {
    if steps != [] {
      var calls := CallsOf(s, steps);
      StepCall(s, steps[0]);
      RunCalls(Apply(s, steps[0]), steps[1..]);
      assert calls[0] == CallOf(s, steps[0]) && calls[1..] == CallsOf(Apply(s, steps[0]), steps[1..]);
    }
  }

  /** For every run of the runtime the manager can follow: no operation fails, it ends with the
      registrations of the run, has scheduled their tasks in order, and its counter is right. */
  method Replay(iom: IO.IOManager, s: State, steps: seq<Step>)
    requires Valid(s, steps) && iom.Valid() && iom.regs == Tasks(s.regs)
    modifies iom, iom.contexts
    ensures iom.Valid() && iom.pending == |After(s, steps).regs|
    ensures iom.regs == Tasks(After(s, steps).regs)
    ensures iom.queue == old(iom.queue) + Scheduled(Tasks(s.regs), CallsOf(s, steps))
  {
    RunCalls(s, steps);
    SameSize(After(s, steps).regs);
    PerformAll(iom, CallsOf(s, steps));
  }

  lemma SameSize(regs: map<Key, Ticket>)
    ensures |Tasks(regs)| == |regs|
  {
    assert Tasks(regs).Keys == regs.Keys;
  }

  /** And what is scheduled from the registry is what the step puts into the queue. */
  lemma ScheduledQueued(s: State, st: Step)
    requires Enabled(s, st) && (CallOf(s, st).CancelsEvent? || CallOf(s, st).Dispatches?)
    ensures var k := CallOf(s, st).k;
            Apply(s, st).queue == s.queue + if k in s.regs then [Entry(s.regs[k], None)] else []
    ensures Scheduled1(Tasks(s.regs), CallOf(s, st)) == if CallOf(s, st).k in s.regs then [s.regs[CallOf(s, st).k].task] else []
  {
    match st
    case Code(CancelEvent(a, k)) => assert Fire(s, k).queue == s.queue + [Entry(s.regs[k], None)];
    case Loop(Dispatch(w, k)) => assert Fire(s, k).queue == s.queue + [Entry(s.regs[k], None)];
    case Hook(TimeoutCancel(w, c)) => CancelQueue(s, Cur(s, w), c);
  }

  lemma CancelQueue(s: State, g: FiberId, c: CallId)
    requires g in s.fibers && c in s.calls
    ensures var k := s.calls[c].key;
            CancelCall(s, g, c).queue == s.queue + if k in s.regs then [Entry(s.regs[k], None)] else []
  {
    var s1, k := SetProg(s, g, Free), s.calls[c].key;
    if k in s.regs {
      assert CancelCall(s, g, c) == Fire(s1, k);
      assert Fire(s1, k).queue == s1.queue + [Entry(s1.regs[k], None)];
    } else {
      assert CancelCall(s, g, c) == s1;
    }
  }

  // ---------------------------------------------------------------- whole reports

  /** One step for every event of a report. */
  function ReportSteps(w: WorkerId, fd: nat, events: IO.Bits): seq<Step> {
    (if events.read then [Loop(Dispatch(w, Key(fd, READ)))] else [])
    + (if events.write then [Loop(Dispatch(w, Key(fd, WRITE)))] else [])
  }

  lemma FireStep(s: State, w: WorkerId, k: Key)
    requires w in s.workers && s.workers[w].pc.Polling? && k in s.regs
    ensures Enabled(s, Loop(Dispatch(w, k)))
    ensures var s' := Apply(s, Loop(Dispatch(w, k)));
            && Tasks(s'.regs) == Tasks(s.regs) - {k} && s'.workers == s.workers
            && s'.queue == s.queue + [Entry(s.regs[k], None)]
  {
    assert Fire(s, k).regs == s.regs - {k};
  }

  predicate SameTasks(entries: seq<Entry>, tasks: seq<Task>) {
    |entries| == |tasks| && forall i | 0 <= i < |tasks| :: entries[i].ticket.task == tasks[i]
  }

  /** A report of registered events is dispatched by these steps one after the other. */
  lemma ReportRun(s: State, w: WorkerId, fd: nat, events: IO.Bits)
    requires w in s.workers && s.workers[w].pc.Polling? && events.Within(IO.Mask(Tasks(s.regs), fd))
    ensures Valid(s, ReportSteps(w, fd, events))
    ensures var s' := After(s, ReportSteps(w, fd, events));
            && Tasks(s'.regs) == IO.Without(Tasks(s.regs), fd, events)
            && |s'.queue| >= |s.queue| && s'.queue[..|s.queue|] == s.queue
            && SameTasks(s'.queue[|s.queue|..], IO.TasksOf(Tasks(s.regs), fd, events))
  {
    var steps := ReportSteps(w, fd, events);
    IO.WithoutSteps(Tasks(s.regs), fd, events);
    if events.read {
      FireStep(s, w, Key(fd, READ));
      var s1 := Apply(s, Loop(Dispatch(w, Key(fd, READ))));
      if events.write {
        FireStep(s1, w, Key(fd, WRITE));
        TwoSteps(s, steps[0], steps[1]);
        assert steps == [steps[0], steps[1]];
      } else {
        OneStep(s, steps[0]);
        assert steps == [steps[0]];
      }
    } else if events.write {
      FireStep(s, w, Key(fd, WRITE));
      OneStep(s, steps[0]);
      assert steps == [steps[0]];
    }
  }

  lemma OneStep(s: State, a: Step)
    requires Enabled(s, a)
    ensures Valid(s, [a]) && After(s, [a]) == Apply(s, a)
  {
    var s1 := Apply(s, a);
    assert [a][1..] == [];
    assert Valid(s1, []) && After(s1, []) == s1;
  }

  lemma TwoSteps(s: State, a: Step, b: Step)
    requires Enabled(s, a) && Enabled(Apply(s, a), b)
    ensures Valid(s, [a, b]) && After(s, [a, b]) == Apply(Apply(s, a), b)
  {
    var s1 := Apply(s, a);
    assert [a, b][1..] == [b];
    OneStep(s1, b);
  }

  /** The dispatch of a whole report, which may be old: if it names registered events only, it is
      what these steps do; if it names none, nothing happens; if it names some of either kind,
      the assertion of triggerEvent fails. */
  method ReportAgrees(iom: IO.IOManager, s: State, w: WorkerId, fd: nat, reported: IO.Bits, hup: bool) returns (r: IO.Outcome)
    requires iom.Valid() && iom.regs == Tasks(s.regs) && fd < |iom.contexts|
    requires w in s.workers && s.workers[w].pc.Polling?
    modifies iom, iom.contexts
    ensures var events := IO.Real(reported, hup, IO.Mask(Tasks(s.regs), fd));
            match r {
              case Aborted => events.And(IO.Mask(Tasks(s.regs), fd)) != IO.NoEvents && !reported.Within(IO.Mask(Tasks(s.regs), fd))
              case Handled(false) => iom.Valid() && iom.regs == Tasks(s.regs) && events.And(IO.Mask(Tasks(s.regs), fd)) == IO.NoEvents
              case Handled(true) =>
                && reported.Within(IO.Mask(Tasks(s.regs), fd)) && Valid(s, ReportSteps(w, fd, events))
                && iom.Valid() && iom.regs == Tasks(After(s, ReportSteps(w, fd, events)).regs)
                && var s' := After(s, ReportSteps(w, fd, events));
                   |s'.queue| >= |s.queue| && |iom.queue| >= |old(iom.queue)|
                   && SameTasks(s'.queue[|s.queue|..], iom.queue[|old(iom.queue)|..])
            }
  {
    ghost var mask := IO.Mask(Tasks(s.regs), fd);
    ghost var events := IO.Real(reported, hup, mask);
    r := iom.Dispatch(fd, reported, hup, false);
    if r == IO.Handled(true) {
      assert events.Within(mask);
      ReportRun(s, w, fd, events);
    }
  }
}
