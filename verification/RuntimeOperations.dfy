/**
  Every operation of the runtime keeps the invariant.
*/
module RuntimeOperations {
  import opened Prelude
  import opened Runtime
  import opened RuntimeInvariant
  import opened RuntimeFacts

  // ---------------------------------------------------------------- a new ticket

  lemma NewFibers(workers: map<WorkerId, Worker>, fibers: map<FiberId, Fiber>, n: nat, place: map<Ticket, Place>, tk: Ticket, p: Place)
    requires FibersInv(workers, fibers, n, place) && tk !in place && NoWake(fibers, tk.task)
    requires p.Registered? || p.Armed? || p.Queued? || p.Collected?
    ensures FibersInv(workers, SetWake(fibers, tk.task, Some(tk)), n, place[tk := p])
  {
    WakeOnlyRuns(workers, fibers, tk.task, Some(tk));
    WakeOnlyFibers(fibers, n, tk.task, Some(tk));
    WakesNew(place, fibers, tk, p);
  }

  lemma NewCalls(calls: map<CallId, CallInfo>, fibers: map<FiberId, Fiber>, timers: map<TimerId, Timer>,
                 place: map<Ticket, Place>, nt: nat, nc: nat, tk: Ticket, p: Place)
    requires CallsInv(calls, fibers, timers, place, nt, nc) && tk !in place && Wakeable(fibers, tk.task)
    requires tk.task.Invoke? ==> !tk.task.cb.Timeout?
    ensures CallsInv(calls, SetWake(fibers, tk.task, Some(tk)), timers, place[tk := p], nt, nc)
  {
    var fibers' := SetWake(fibers, tk.task, Some(tk));
    WakeOnlyProgs(calls, fibers, nc, tk.task, Some(tk));
    AttemptsNew(calls, fibers, place, tk, p);
    WakeOnlyCallTimers(calls, fibers, timers, nt, tk.task, Some(tk));
    WakeOnlyFired(calls, fibers, place, tk.task, Some(tk));
    FiredPlace(calls, fibers', place, tk, p);
    WakeOnlyRings(calls, fibers, place, tk.task, Some(tk));
    RingsPlace(calls, fibers', place, tk, p);
  }

  /** Somebody can act: then not every idle fiber has terminated. */
  ghost predicate Acting(s: State) {
    !s.stopping || (exists w :: w in s.workers && !NoWork(s.workers[w]))
  }

  lemma ActingNotAllDone(s: State)
    requires StopOk(s.queue, s.regs, s.timers, s.workers, s.stopping) && Acting(s)
    ensures s.workers == map[] || exists w :: w in s.workers && !s.workers[w].idleDone
  {
  }

  lemma PushPlaces(s: State, t: Task, pin: Option<WorkerId>)
    requires PlacesInv(s)
    ensures PlacesInv(Push(s, t, pin))
  {
    var tk := Ticket(s.nextTicket, t);
    IssuedNew(s.place, tk, Queued);
    RegsKeep(s.regs, s.place, tk, Queued);
    TimersKeep(s.timers, s.place, s.nextTimer, tk, Queued);
    QueuePush(s.queue, s.place, Entry(tk, pin));
    HandsKeep(s.workers, s.place, tk, Queued);
    CollectedKeep(s.workers, s.place, tk, Queued);
    InsideKeep(s.fibers, s.place, tk, Queued);
    WakeOnlyInside(s.fibers, s.place[tk := Queued], t, Some(tk));
  }

  lemma PushOk(s: State, t: Task, pin: Option<WorkerId>)
    requires Inv(s) && Wakeable(s.fibers, t) && Acting(s)
    requires t.Invoke? ==> !t.cb.Timeout?
    ensures Inv(Push(s, t, pin))
  {
    var tk := Ticket(s.nextTicket, t);
    IssuedNew(s.place, tk, Queued);
    PushPlaces(s, t, pin);
    NewFibers(s.workers, s.fibers, s.nextFiber, s.place, tk, Queued);
    NewCalls(s.calls, s.fibers, s.timers, s.place, s.nextTimer, s.nextCall, tk, Queued);
    ActingNotAllDone(s);
  }

  // ---------------------------------------------------------------- registrations

  lemma RegisterPlaces(s: State, k: Key, t: Task)
    requires PlacesInv(s) && k !in s.regs
    ensures PlacesInv(Register(s, k, t))
  {
    var tk := Ticket(s.nextTicket, t);
    var p := Registered(k);
    IssuedNew(s.place, tk, p);
    RegsAdd(s.regs, s.place, k, tk);
    TimersKeep(s.timers, s.place, s.nextTimer, tk, p);
    QueueKeep(s.queue, s.place, tk, p);
    HandsKeep(s.workers, s.place, tk, p);
    CollectedKeep(s.workers, s.place, tk, p);
    InsideKeep(s.fibers, s.place, tk, p);
    WakeOnlyInside(s.fibers, s.place[tk := p], t, Some(tk));
  }

  lemma RegisterCounts(s: State, k: Key, t: Task)
    requires CountsInv(s) && k !in s.regs && Acting(s)
    ensures CountsInv(Register(s, k, t))
  {
    ActingNotAllDone(s);
  }

  lemma RegisterOk(s: State, k: Key, t: Task)
    requires Inv(s) && k !in s.regs && Wakeable(s.fibers, t) && Acting(s)
    requires t.Invoke? ==> !t.cb.Timeout?
    ensures Inv(Register(s, k, t))
  {
    var tk := Ticket(s.nextTicket, t);
    IssuedNew(s.place, tk, Registered(k));
    RegisterPlaces(s, k, t);
    NewFibers(s.workers, s.fibers, s.nextFiber, s.place, tk, Registered(k));
    NewCalls(s.calls, s.fibers, s.timers, s.place, s.nextTimer, s.nextCall, tk, Registered(k));
    RegisterCounts(s, k, t);
  }

  /** A ticket on its way, between two places from which it can still reach a fiber. */
  lemma MoveFibers(workers: map<WorkerId, Worker>, fibers: map<FiberId, Fiber>, n: nat, place: map<Ticket, Place>, tk: Ticket, p: Place)
    requires FibersInv(workers, fibers, n, place) && tk in place
    requires var q := place[tk]; q.Registered? || q.Armed? || q.Queued? || q.Collected?
    requires p.Queued? || p.Collected? || p.InHand?
    requires p.InHand? && tk.task.Wake? && tk.task.fiber in fibers ==> !fibers[tk.task.fiber].state.EXEC?
    ensures FibersInv(workers, fibers, n, place[tk := p])
  {
    WakesMove(place, fibers, tk, p);
  }

  lemma MoveCalls(calls: map<CallId, CallInfo>, fibers: map<FiberId, Fiber>, timers: map<TimerId, Timer>,
                  place: map<Ticket, Place>, nt: nat, nc: nat, tk: Ticket, p: Place)
    requires CallsInv(calls, fibers, timers, place, nt, nc) && tk in place
    requires var q := place[tk]; q.Registered? || q.Queued? || q.Collected? || (q.Armed? && tk.task.Invoke? && IsExpired(calls, tk.task))
    requires p.Queued? || p.Collected? || p.InHand?
    requires tk.task.Wake? ==> !p.Collected?
    ensures CallsInv(calls, fibers, timers, place[tk := p], nt, nc)
  {
    AttemptsMove(calls, fibers, place, tk, p);
    FiredPlace(calls, fibers, place, tk, p);
    RingsPlace(calls, fibers, place, tk, p);
  }

  predicate IsExpired(calls: map<CallId, CallInfo>, t: Task) {
    t.Invoke? && t.cb.Timeout? ==> t.cb.call in calls && calls[t.cb.call].fired > 0
  }

  lemma FirePlaces(s: State, k: Key)
    requires PlacesInv(s) && k in s.regs
    ensures PlacesInv(Fire(s, k))
  {
    var tk := s.regs[k];
    IssuedMove(s.place, s.nextTicket, tk, Queued);
    RegsRemove(s.regs, s.place, k, Queued);
    TimersKeep(s.timers, s.place, s.nextTimer, tk, Queued);
    QueuePush(s.queue, s.place, Entry(tk, None));
    HandsKeep(s.workers, s.place, tk, Queued);
    CollectedKeep(s.workers, s.place, tk, Queued);
    InsideKeep(s.fibers, s.place, tk, Queued);
  }

  lemma FireCounts(s: State, k: Key)
    requires CountsInv(s) && k in s.regs
    ensures CountsInv(Fire(s, k))
  {
    FireHistory(s.regs, s.adds, s.fires, s.dels, k);
  }

  lemma FireHistory(regs: map<Key, Ticket>, adds: map<Key, nat>, fires: map<Key, nat>, dels: map<Key, nat>, k: Key)
    requires HistoryOk(regs, adds, fires, dels) && k in regs
    ensures HistoryOk(regs - {k}, adds, Bump(fires, k), dels) && HistoryOk(regs - {k}, adds, fires, Bump(dels, k))
  {
  }

  lemma FireOk(s: State, k: Key)
    requires Inv(s) && k in s.regs
    ensures Inv(Fire(s, k))
  {
    var tk := s.regs[k];
    FirePlaces(s, k);
    MoveFibers(s.workers, s.fibers, s.nextFiber, s.place, tk, Queued);
    MoveCalls(s.calls, s.fibers, s.timers, s.place, s.nextTimer, s.nextCall, tk, Queued);
    FireCounts(s, k);
  }

  lemma UnregisterPlaces(s: State, k: Key)
    requires PlacesInv(s) && k in s.regs
    ensures PlacesInv(Unregister(s, k))
  {
    var tk := s.regs[k];
    IssuedMove(s.place, s.nextTicket, tk, Deleted);
    RegsRemove(s.regs, s.place, k, Deleted);
    TimersKeep(s.timers, s.place, s.nextTimer, tk, Deleted);
    QueueKeep(s.queue, s.place, tk, Deleted);
    HandsKeep(s.workers, s.place, tk, Deleted);
    CollectedKeep(s.workers, s.place, tk, Deleted);
    InsideKeep(s.fibers, s.place, tk, Deleted);
    WakeOnlyInside(s.fibers, s.place[tk := Deleted], tk.task, None);
  }

  lemma UnregisterFibers(workers: map<WorkerId, Worker>, fibers: map<FiberId, Fiber>, n: nat, place: map<Ticket, Place>, tk: Ticket)
    requires FibersInv(workers, fibers, n, place) && tk in place && place[tk].Registered?
    ensures FibersInv(workers, SetWake(fibers, tk.task, None), n, place[tk := Deleted])
  {
    WakeOnlyRuns(workers, fibers, tk.task, None);
    WakeOnlyFibers(fibers, n, tk.task, None);
    WakesRetire(place, fibers, tk, Deleted);
  }

  lemma UnregisterCalls(calls: map<CallId, CallInfo>, fibers: map<FiberId, Fiber>, timers: map<TimerId, Timer>,
                        place: map<Ticket, Place>, nt: nat, nc: nat, tk: Ticket)
    requires CallsInv(calls, fibers, timers, place, nt, nc) && WakesOk(place, fibers)
    requires tk in place && place[tk].Registered?
    ensures CallsInv(calls, SetWake(fibers, tk.task, None), timers, place[tk := Deleted], nt, nc)
  {
    var fibers' := SetWake(fibers, tk.task, None);
    WakeOnlyProgs(calls, fibers, nc, tk.task, None);
    AttemptsRetire(calls, fibers, place, tk);
    WakeOnlyCallTimers(calls, fibers, timers, nt, tk.task, None);
    WakeOnlyFired(calls, fibers, place, tk.task, None);
    FiredPlace(calls, fibers', place, tk, Deleted);
    WakeOnlyRings(calls, fibers, place, tk.task, None);
    RingsPlace(calls, fibers', place, tk, Deleted);
  }

  lemma UnregisterCounts(s: State, k: Key)
    requires CountsInv(s) && k in s.regs
    ensures CountsInv(Unregister(s, k))
  {
    FireHistory(s.regs, s.adds, s.fires, s.dels, k);
  }

  lemma UnregisterOk(s: State, k: Key)
    requires Inv(s) && k in s.regs
    ensures Inv(Unregister(s, k))
  {
    UnregisterPlaces(s, k);
    UnregisterFibers(s.workers, s.fibers, s.nextFiber, s.place, s.regs[k]);
    UnregisterCalls(s.calls, s.fibers, s.timers, s.place, s.nextTimer, s.nextCall, s.regs[k]);
    UnregisterCounts(s, k);
  }

  // ---------------------------------------------------------------- timers

  lemma ArmPlaces(s: State, t: Task, recurring: bool)
    requires PlacesInv(s) && t.Invoke? && (recurring ==> t.cb.User?)
    ensures PlacesInv(Arm(s, t, recurring))
  {
    var tk := Ticket(s.nextTicket, t);
    var p := Armed(s.nextTimer);
    IssuedNew(s.place, tk, p);
    RegsKeep(s.regs, s.place, tk, p);
    TimersAdd(s.timers, s.place, s.nextTimer, Timer(tk, recurring));
    QueueKeep(s.queue, s.place, tk, p);
    HandsKeep(s.workers, s.place, tk, p);
    CollectedKeep(s.workers, s.place, tk, p);
    InsideKeep(s.fibers, s.place, tk, p);
    WakeOnlyInside(s.fibers, s.place[tk := p], t, Some(tk));
  }

  lemma ArmCounts(s: State, t: Task, recurring: bool)
    requires CountsInv(s) && Acting(s)
    ensures CountsInv(Arm(s, t, recurring))
  {
    ActingNotAllDone(s);
  }

  lemma ArmOk(s: State, t: Task, recurring: bool)
    requires Inv(s) && Wakeable(s.fibers, t) && Acting(s)
    requires t.Invoke? && !t.cb.Timeout? && (recurring ==> t.cb.User?)
    ensures Inv(Arm(s, t, recurring))
  {
    var tk := Ticket(s.nextTicket, t);
    var p := Armed(s.nextTimer);
    IssuedNew(s.place, tk, p);
    ArmPlaces(s, t, recurring);
    NewFibers(s.workers, s.fibers, s.nextFiber, s.place, tk, p);
    NewCalls(s.calls, s.fibers, s.timers, s.place, s.nextTimer, s.nextCall, tk, p);
    CallTimersAdd(s.calls, SetWake(s.fibers, t, Some(tk)), s.timers, s.nextTimer, Timer(tk, recurring));
    ArmCounts(s, t, recurring);
  }

  lemma DisarmPlaces(s: State, t: TimerId)
    requires PlacesInv(s) && t in s.timers
    ensures PlacesInv(Disarm(s, t))
  {
    var tk := s.timers[t].ticket;
    IssuedMove(s.place, s.nextTicket, tk, Cancelled);
    RegsKeep(s.regs, s.place, tk, Cancelled);
    TimersRemove(s.timers, s.place, s.nextTimer, t, Cancelled);
    QueueKeep(s.queue, s.place, tk, Cancelled);
    HandsKeep(s.workers, s.place, tk, Cancelled);
    CollectedKeep(s.workers, s.place, tk, Cancelled);
    InsideKeep(s.fibers, s.place, tk, Cancelled);
  }

  lemma DisarmCalls(calls: map<CallId, CallInfo>, fibers: map<FiberId, Fiber>, timers: map<TimerId, Timer>,
                    place: map<Ticket, Place>, nt: nat, nc: nat, t: TimerId)
    requires CallsInv(calls, fibers, timers, place, nt, nc)
    requires t in timers && timers[t].ticket in place && place[timers[t].ticket] == Armed(t)
    requires timers[t].ticket.task.Invoke?
    requires timers[t].ticket.task.cb.Timeout? ==>
               var c := timers[t].ticket.task.cb.call;
               HasPoint(c, calls, fibers) && !Point(c, calls, fibers).Registering? && !Point(c, calls, fibers).Suspending?
    ensures CallsInv(calls, fibers, timers - {t}, place[timers[t].ticket := Cancelled], nt, nc)
  {
    var tk := timers[t].ticket;
    AttemptsMove(calls, fibers, place, tk, Cancelled);
    CallTimersRemove(calls, fibers, timers, nt, t);
    FiredPlace(calls, fibers, place, tk, Cancelled);
    RingsDisarm(calls, fibers, place, tk, Cancelled);
  }

  lemma DisarmWakes(place: map<Ticket, Place>, fibers: map<FiberId, Fiber>, tk: Ticket)
    requires WakesOk(place, fibers) && Carries(tk.task) == None
    ensures WakesOk(place[tk := Cancelled], fibers)
  {
  }

  lemma DisarmCounts(s: State, t: TimerId)
    requires CountsInv(s) && t in s.timers
    ensures CountsInv(Disarm(s, t))
  {
  }

  lemma DisarmOk(s: State, t: TimerId)
    requires Inv(s) && t in s.timers && Carries(s.timers[t].ticket.task) == None
    requires s.timers[t].ticket.task.Invoke?
    requires s.timers[t].ticket.task.cb.Timeout? ==>
               var c := s.timers[t].ticket.task.cb.call;
               HasPoint(c, s.calls, s.fibers) && !Point(c, s.calls, s.fibers).Registering? && !Point(c, s.calls, s.fibers).Suspending?
    ensures Inv(Disarm(s, t))
  {
    DisarmPlaces(s, t);
    DisarmWakes(s.place, s.fibers, s.timers[t].ticket);
    DisarmCalls(s.calls, s.fibers, s.timers, s.place, s.nextTimer, s.nextCall, t);
    DisarmCounts(s, t);
  }
}
