/**
  The steps of a hooked call, of the sleeping timer and of the time-out lambda keep the
  invariant.
*/
module RuntimeCalls {
  import opened Prelude
  import opened Runtime
  import opened RuntimeInvariant
  import opened RuntimeFacts
  import opened RuntimeOperations
  import opened RuntimeFibers

  // ---------------------------------------------------------------- one call and its fiber

  predicate Own(calls: map<CallId, CallInfo>, fibers: map<FiberId, Fiber>, f: FiberId, c: CallId) {
    f in fibers && fibers[f].prog.InCall? && fibers[f].prog.call == c && c in calls && calls[c].alive && calls[c].fiber == f
  }

  lemma CallProgs(calls: map<CallId, CallInfo>, fibers: map<FiberId, Fiber>, n: nat, f: FiberId, fb: Fiber, c: CallId, ci: CallInfo)
    requires ProgsOk(calls, fibers, n) && Own(calls, fibers, f, c) && ci.fiber == f
    requires if ci.alive then fb.prog.InCall? && fb.prog.call == c else !fb.prog.InCall?
    ensures ProgsOk(calls[c := ci], fibers[f := fb], n)
  {
  }

  lemma CallAttempts(calls: map<CallId, CallInfo>, fibers: map<FiberId, Fiber>, place: map<Ticket, Place>, f: FiberId, fb: Fiber, c: CallId, ci: CallInfo)
    requires AttemptsOk(calls, fibers, place) && ProgsAgree(calls, fibers) && Own(calls, fibers, f, c)
    requires ci.fiber == f && AttemptOk(ci, fb, place)
    ensures AttemptsOk(calls[c := ci], fibers[f := fb], place)
  {
  }

  predicate TimersFit(timers: map<TimerId, Timer>, n: nat, fb: Fiber, c: CallId, ci: CallInfo) {
    && (forall t | t in timers && IsTimeout(timers[t].ticket.task, c) ::
          ci.alive && ci.limited && ci.timer == Some(t) && fb.prog.InCall? && TimerPoint(fb.prog.at))
    && (ci.timer.Some? ==> ci.timer.value < n && (ci.timer.value in timers ==> IsTimeout(timers[ci.timer.value].ticket.task, c)))
  }

  lemma CallTimers(calls: map<CallId, CallInfo>, fibers: map<FiberId, Fiber>, timers: map<TimerId, Timer>, n: nat, f: FiberId, fb: Fiber, c: CallId, ci: CallInfo)
    requires CallTimersOk(calls, fibers, timers, n) && ProgsAgree(calls, fibers) && Own(calls, fibers, f, c)
    requires ci.fiber == f && TimersFit(timers, n, fb, c, ci)
    ensures CallTimersOk(calls[c := ci], fibers[f := fb], timers, n)
  {
  }

  lemma CallFired(calls: map<CallId, CallInfo>, fibers: map<FiberId, Fiber>, place: map<Ticket, Place>, f: FiberId, fb: Fiber, c: CallId, ci: CallInfo)
    requires FiredOk(calls, fibers, place) && c in calls
    requires ci.limited == calls[c].limited && ci.fired == calls[c].fired && ci.flag == calls[c].flag
    requires ci.timedOut ==> ci.flag && !ci.alive
    requires !fb.prog.Expiring? && !fb.prog.Cancelling?
    ensures FiredOk(calls[c := ci], fibers[f := fb], place)
  {
  }

  predicate RingFits(place: map<Ticket, Place>, fibers: map<FiberId, Fiber>, fb: Fiber, c: CallId, ci: CallInfo) {
    ci.alive && ci.limited && !ci.flag && fb.prog.InCall? && (fb.prog.at.Registering? || fb.prog.at.Suspending?) ==>
      ci.ring.Some? && Ringing(ci.ring.value, c, place, fibers)
  }

  lemma CallRings(calls: map<CallId, CallInfo>, fibers: map<FiberId, Fiber>, place: map<Ticket, Place>, f: FiberId, fb: Fiber, c: CallId, ci: CallInfo)
    requires RingsOk(calls, fibers, place) && ProgsAgree(calls, fibers) && Own(calls, fibers, f, c)
    requires ci.fiber == f && !fb.prog.Expiring? && RingFits(place, fibers, fb, c, ci)
    ensures RingsOk(calls[c := ci], fibers[f := fb], place)
  {
  }

  lemma CallMove(calls: map<CallId, CallInfo>, fibers: map<FiberId, Fiber>, timers: map<TimerId, Timer>,
                 place: map<Ticket, Place>, nt: nat, nc: nat, f: FiberId, fb: Fiber, c: CallId, ci: CallInfo)
    requires CallsInv(calls, fibers, timers, place, nt, nc) && Own(calls, fibers, f, c) && ci.fiber == f
    requires if ci.alive then fb.prog.InCall? && fb.prog.call == c else fb.prog == Free
    requires AttemptOk(ci, fb, place)
    requires TimersFit(timers, nt, fb, c, ci)
    requires ci.limited == calls[c].limited && ci.fired == calls[c].fired && ci.flag == calls[c].flag
    requires ci.timedOut ==> ci.flag && !ci.alive
    requires RingFits(place, fibers, fb, c, ci)
    ensures CallsInv(calls[c := ci], fibers[f := fb], timers, place, nt, nc)
  {
    CallProgs(calls, fibers, nc, f, fb, c, ci);
    CallAttempts(calls, fibers, place, f, fb, c, ci);
    CallTimers(calls, fibers, timers, nt, f, fb, c, ci);
    CallFired(calls, fibers, place, f, fb, c, ci);
    CallRings(calls, fibers, place, f, fb, c, ci);
  }

  // ---------------------------------------------------------------- the program point of an executing fiber

  lemma ProgFibers(workers: map<WorkerId, Worker>, fibers: map<FiberId, Fiber>, n: nat, place: map<Ticket, Place>, f: FiberId, p: Prog)
    requires FibersInv(workers, fibers, n, place) && f in fibers && fibers[f].state.EXEC?
    requires !fibers[f].prog.Resuming? && !p.Resuming?
    ensures FibersInv(workers, fibers[f := fibers[f].(prog := p)], n, place)
  {
    var fb := fibers[f].(prog := p);
    ProgRuns(workers, fibers, f, fb);
    WakesState(place, fibers, f, fb);
  }

  lemma ProgRuns(workers: map<WorkerId, Worker>, fibers: map<FiberId, Fiber>, f: FiberId, fb: Fiber)
    requires RunsOk(workers, fibers) && SparesOk(workers, fibers) && f in fibers
    requires fb.state == fibers[f].state && fb.spareOf == fibers[f].spareOf
    ensures RunsOk(workers, fibers[f := fb]) && SparesOk(workers, fibers[f := fb])
  {
  }

  /** What the invariant says about the fiber of a call at a given point. */
  lemma AtPoint(s: State, w: WorkerId, c: CallId, at: CallPoint)
    requires FibersInv(s.workers, s.fibers, s.nextFiber, s.place)
    requires CallsInv(s.calls, s.fibers, s.timers, s.place, s.nextTimer, s.nextCall) && RunsCall(s, w, c, at)
    ensures var f := Cur(s, w);
            && Own(s.calls, s.fibers, f, c) && s.fibers[f].state == EXEC(w)
            && AttemptOk(s.calls[c], s.fibers[f], s.place)
            && (TimerPoint(at) ==> TimersFit(s.timers, s.nextTimer, s.fibers[f], c, s.calls[c]))
            && (!TimerPoint(at) ==> forall t | t in s.timers :: !IsTimeout(s.timers[t].ticket.task, c))
            && RingFits(s.place, s.fibers, s.fibers[f], c, s.calls[c])
            && (s.calls[c].timedOut ==> !s.calls[c].alive)
  {
  }

  lemma PointTimers(s: State, c: CallId)
    requires CallTimersOk(s.calls, s.fibers, s.timers, s.nextTimer) && c in s.calls
    ensures s.calls[c].timer.Some? ==> s.calls[c].timer.value < s.nextTimer
    ensures s.calls[c].timer.Some? && s.calls[c].timer.value in s.timers ==> IsTimeout(s.timers[s.calls[c].timer.value].ticket.task, c)
  {
  }

  /** A call goes on to another point without touching anything else. */
  lemma StepOn(s: State, w: WorkerId, c: CallId, at: CallPoint, at': CallPoint)
    requires Inv(s) && RunsCall(s, w, c, at)
    requires !at.Suspending? && !at'.Suspending? && !at'.Registering?
    requires TimerPoint(at) ==> TimerPoint(at') || (forall t | t in s.timers :: !IsTimeout(s.timers[t].ticket.task, c))
    ensures Inv(SetProg(s, Cur(s, w), InCall(c, at')))
  {
    var f := Cur(s, w);
    var fb := s.fibers[f].(prog := InCall(c, at'));
    AtPoint(s, w, c, at);
    PointTimers(s, c);
    InsideFiber(s.fibers, s.place, f, fb);
    ProgFibers(s.workers, s.fibers, s.nextFiber, s.place, f, InCall(c, at'));
    assert s.calls[c := s.calls[c]] == s.calls;
    CallMove(s.calls, s.fibers, s.timers, s.place, s.nextTimer, s.nextCall, f, fb, c, s.calls[c]);
  }

  lemma EndOk(s: State, w: WorkerId, c: CallId, at: CallPoint, timedOut: bool)
    requires Inv(s) && RunsCall(s, w, c, at) && !at.Suspending?
    requires forall t | t in s.timers :: !IsTimeout(s.timers[t].ticket.task, c)
    requires timedOut ==> s.calls[c].flag
    ensures Inv(EndCall(s, Cur(s, w), c, timedOut))
  {
    var f := Cur(s, w);
    var fb := s.fibers[f].(prog := Free);
    var ci := s.calls[c].(alive := false, timedOut := timedOut);
    AtPoint(s, w, c, at);
    PointTimers(s, c);
    InsideFiber(s.fibers, s.place, f, fb);
    ProgFibers(s.workers, s.fibers, s.nextFiber, s.place, f, Free);
    CallMove(s.calls, s.fibers, s.timers, s.place, s.nextTimer, s.nextCall, f, fb, c, ci);
  }

  // ---------------------------------------------------------------- begin

  lemma BeginCalls(calls: map<CallId, CallInfo>, fibers: map<FiberId, Fiber>, timers: map<TimerId, Timer>,
                   place: map<Ticket, Place>, nt: nat, nc: nat, f: FiberId, fb: Fiber, ci: CallInfo)
    requires CallsInv(calls, fibers, timers, place, nt, nc)
    requires f in fibers && !fibers[f].prog.InCall? && !fibers[f].prog.Expiring?
    requires fb.prog == InCall(nc, Trying) && fb.wake == None
    requires ci.fiber == f && ci.alive && ci.timer == None && !ci.flag && !ci.timedOut && ci.attempts == 0 && ci.resumes == 0
    ensures CallsInv(calls[nc := ci], fibers[f := fb], timers, place, nt, nc + 1)
  {
    assert nc !in calls;
    BeginProgs(calls, fibers, nc, f, fb, ci);
    BeginAttempts(calls, fibers, place, nc, f, fb, ci);
    BeginTimers(calls, fibers, timers, nt, nc, f, fb, ci);
    BeginFired(calls, fibers, place, nc, f, fb, ci);
    BeginRings(calls, fibers, place, nc, f, fb, ci);
  }

  lemma BeginProgs(calls: map<CallId, CallInfo>, fibers: map<FiberId, Fiber>, nc: nat, f: FiberId, fb: Fiber, ci: CallInfo)
    requires ProgsOk(calls, fibers, nc) && f in fibers && !fibers[f].prog.InCall?
    requires fb.prog == InCall(nc, Trying) && ci.fiber == f && ci.alive
    ensures ProgsOk(calls[nc := ci], fibers[f := fb], nc + 1)
  {
  }

  lemma BeginAttempts(calls: map<CallId, CallInfo>, fibers: map<FiberId, Fiber>, place: map<Ticket, Place>, nc: nat, f: FiberId, fb: Fiber, ci: CallInfo)
    requires AttemptsOk(calls, fibers, place) && ProgsAgree(calls, fibers) && nc !in calls
    requires f in fibers && !fibers[f].prog.InCall? && fb.prog == InCall(nc, Trying) && fb.wake == None
    requires ci.fiber == f && ci.alive && ci.attempts == 0 && ci.resumes == 0
    ensures AttemptsOk(calls[nc := ci], fibers[f := fb], place)
  {
  }

  lemma BeginTimers(calls: map<CallId, CallInfo>, fibers: map<FiberId, Fiber>, timers: map<TimerId, Timer>, nt: nat, nc: nat, f: FiberId, fb: Fiber, ci: CallInfo)
    requires CallTimersOk(calls, fibers, timers, nt) && ProgsAgree(calls, fibers) && nc !in calls
    requires f in fibers && !fibers[f].prog.InCall? && ci.timer == None
    ensures CallTimersOk(calls[nc := ci], fibers[f := fb], timers, nt)
  {
  }

  lemma BeginFired(calls: map<CallId, CallInfo>, fibers: map<FiberId, Fiber>, place: map<Ticket, Place>, nc: nat, f: FiberId, fb: Fiber, ci: CallInfo)
    requires FiredOk(calls, fibers, place) && nc !in calls
    requires fb.prog == InCall(nc, Trying) && !ci.flag && !ci.timedOut
    ensures FiredOk(calls[nc := ci], fibers[f := fb], place)
  {
  }

  lemma BeginRings(calls: map<CallId, CallInfo>, fibers: map<FiberId, Fiber>, place: map<Ticket, Place>, nc: nat, f: FiberId, fb: Fiber, ci: CallInfo)
    requires RingsOk(calls, fibers, place) && ProgsAgree(calls, fibers) && nc !in calls
    requires f in fibers && !fibers[f].prog.InCall? && !fibers[f].prog.Expiring?
    requires fb.prog == InCall(nc, Trying) && ci.fiber == f
    ensures RingsOk(calls[nc := ci], fibers[f := fb], place)
  {
  }

  lemma BeginOk(s: State, w: WorkerId, k: Key, limited: bool, retries: bool)
    requires Inv(s) && RunsProg(s, w, Free) && Wakeable(s.fibers, Wake(Cur(s, w)))
    ensures Inv(BeginCall(s, Cur(s, w), k, limited, retries))
  {
    var f := Cur(s, w);
    var p := InCall(s.nextCall, Trying);
    InsideFiber(s.fibers, s.place, f, s.fibers[f].(prog := p));
    ProgFibers(s.workers, s.fibers, s.nextFiber, s.place, f, p);
    BeginCalls(s.calls, s.fibers, s.timers, s.place, s.nextTimer, s.nextCall, f, s.fibers[f].(prog := p),
               CallInfo(f, k, limited, retries, None, false, true, None, None, 0, 0, 0, false));
  }

  // ---------------------------------------------------------------- arm

  lemma ArmTimers(calls: map<CallId, CallInfo>, fibers: map<FiberId, Fiber>, timers: map<TimerId, Timer>, n: nat, tm: Timer,
                  f: FiberId, fb: Fiber, c: CallId, ci: CallInfo)
    requires CallTimersOk(calls, fibers, timers, n) && ProgsAgree(calls, fibers) && Own(calls, fibers, f, c)
    requires IsTimeout(tm.ticket.task, c) && n !in timers
    requires ci.fiber == f && ci.alive && ci.limited && ci.timer == Some(n)
    requires fb.prog.InCall? && TimerPoint(fb.prog.at)
    requires forall t | t in timers :: !IsTimeout(timers[t].ticket.task, c)
    ensures CallTimersOk(calls[c := ci], fibers[f := fb], timers[n := tm], n + 1)
  {
  }

  lemma AttemptsFresh(calls: map<CallId, CallInfo>, fibers: map<FiberId, Fiber>, place: map<Ticket, Place>, tk: Ticket, p: Place)
    requires AttemptsOk(calls, fibers, place) && tk !in place
    ensures AttemptsOk(calls, fibers, place[tk := p])
  {
  }

  /** A fresh ticket that is the wake of a call, or its armed time-out. */
  lemma FreshCalls(calls: map<CallId, CallInfo>, fibers: map<FiberId, Fiber>, timers: map<TimerId, Timer>,
                   place: map<Ticket, Place>, nt: nat, nc: nat, tk: Ticket, p: Place)
    requires CallsInv(calls, fibers, timers, place, nt, nc) && tk !in place
    requires tk.task.Invoke? && tk.task.cb.Timeout? ==> p.Armed? && tk.task.cb.call in calls && calls[tk.task.cb.call].limited
    ensures CallsInv(calls, fibers, timers, place[tk := p], nt, nc)
  {
    AttemptsFresh(calls, fibers, place, tk, p);
    FiredPlace(calls, fibers, place, tk, p);
    RingsPlace(calls, fibers, place, tk, p);
  }

  lemma ArmMove(calls: map<CallId, CallInfo>, fibers: map<FiberId, Fiber>, timers: map<TimerId, Timer>,
                place: map<Ticket, Place>, nt: nat, nc: nat, f: FiberId, fb: Fiber, c: CallId, ci: CallInfo, tk: Ticket)
    requires CallsInv(calls, fibers, timers, place, nt, nc) && Own(calls, fibers, f, c)
    requires fibers[f].prog == InCall(c, Arming) && fb == fibers[f].(prog := InCall(c, Registering))
    requires ci == calls[c].(timer := Some(nt), ring := Some(tk)) && ci.limited
    requires At(place, tk, Armed(nt)) && IsTimeout(tk.task, c) && nt !in timers
    requires forall t | t in timers :: !IsTimeout(timers[t].ticket.task, c)
    ensures CallsInv(calls[c := ci], fibers[f := fb], timers[nt := Timer(tk, false)], place, nt + 1, nc)
  {
    CallProgs(calls, fibers, nc, f, fb, c, ci);
    CallAttempts(calls, fibers, place, f, fb, c, ci);
    ArmTimers(calls, fibers, timers, nt, Timer(tk, false), f, fb, c, ci);
    CallFired(calls, fibers, place, f, fb, c, ci);
    CallRings(calls, fibers, place, f, fb, c, ci);
  }

  lemma ArmCallIs(s: State, w: WorkerId, c: CallId)
    requires RunsCall(s, w, c, Arming) && s.calls[c].limited
    ensures var f, s' := Cur(s, w), ArmCall(s, Cur(s, w), c);
            var tk := Ticket(s.nextTicket, Invoke(Timeout(c)));
            && s'.fibers == s.fibers[f := s.fibers[f].(prog := InCall(c, Registering))]
            && s'.calls == s.calls[c := s.calls[c].(timer := Some(s.nextTimer), ring := Some(tk))]
            && s'.place == s.place[tk := Armed(s.nextTimer)]
            && s'.timers == s.timers[s.nextTimer := Timer(tk, false)]
            && s'.nextTimer == s.nextTimer + 1 && s'.nextCall == s.nextCall
  {
  }

  lemma ArmCallCalls(calls: map<CallId, CallInfo>, fibers: map<FiberId, Fiber>, timers: map<TimerId, Timer>,
                     place: map<Ticket, Place>, nt: nat, nc: nat, f: FiberId, c: CallId, tk: Ticket)
    requires CallsInv(calls, fibers, timers, place, nt, nc) && Own(calls, fibers, f, c)
    requires fibers[f].prog == InCall(c, Arming) && tk !in place && IsTimeout(tk.task, c) && nt !in timers
    requires forall t | t in timers :: !IsTimeout(timers[t].ticket.task, c)
    requires calls[c].limited
    ensures CallsInv(calls[c := calls[c].(timer := Some(nt), ring := Some(tk))],
                     fibers[f := fibers[f].(prog := InCall(c, Registering))],
                     timers[nt := Timer(tk, false)], place[tk := Armed(nt)], nt + 1, nc)
  {
    FreshCalls(calls, fibers, timers, place, nt, nc, tk, Armed(nt));
    ArmMove(calls, fibers, timers, place[tk := Armed(nt)], nt, nc, f, fibers[f].(prog := InCall(c, Registering)), c,
            calls[c].(timer := Some(nt), ring := Some(tk)), tk);
  }

  lemma ArmCallAt(s: State, w: WorkerId, c: CallId)
    requires CallsInv(s.calls, s.fibers, s.timers, s.place, s.nextTimer, s.nextCall)
    requires FibersInv(s.workers, s.fibers, s.nextFiber, s.place)
    requires IssuedOk(s.place, s.nextTicket) && s.nextTimer !in s.timers
    requires RunsCall(s, w, c, Arming) && s.calls[c].limited
    ensures var f, tk := Cur(s, w), Ticket(s.nextTicket, Invoke(Timeout(c)));
            CallsInv(s.calls[c := s.calls[c].(timer := Some(s.nextTimer), ring := Some(tk))],
                     s.fibers[f := s.fibers[f].(prog := InCall(c, Registering))],
                     s.timers[s.nextTimer := Timer(tk, false)], s.place[tk := Armed(s.nextTimer)], s.nextTimer + 1, s.nextCall)
  {
    AtPoint(s, w, c, Arming);
    ArmCallCalls(s.calls, s.fibers, s.timers, s.place, s.nextTimer, s.nextCall, Cur(s, w), c,
                 Ticket(s.nextTicket, Invoke(Timeout(c))));
  }

  lemma ArmCallPlaces(s: State, w: WorkerId, c: CallId)
    requires PlacesInv(s) && RunsCall(s, w, c, Arming) && s.calls[c].limited
    ensures PlacesInv(ArmCall(s, Cur(s, w), c))
  {
    var f, s1 := Cur(s, w), Arm(s, Invoke(Timeout(c)), false);
    ArmPlaces(s, Invoke(Timeout(c)), false);
    InsideFiber(s1.fibers, s1.place, f, s1.fibers[f].(prog := InCall(c, Registering)));
  }

  lemma ArmCallFibers(s: State, w: WorkerId, c: CallId)
    requires FibersInv(s.workers, s.fibers, s.nextFiber, s.place) && IssuedOk(s.place, s.nextTicket)
    requires RunsCall(s, w, c, Arming) && s.calls[c].limited && s.fibers[Cur(s, w)].state.EXEC?
    ensures var s' := ArmCall(s, Cur(s, w), c); FibersInv(s'.workers, s'.fibers, s'.nextFiber, s'.place)
  {
    var tk, p := Ticket(s.nextTicket, Invoke(Timeout(c))), Armed(s.nextTimer);
    IssuedNew(s.place, tk, p);
    NewFibers(s.workers, s.fibers, s.nextFiber, s.place, tk, p);
    ProgFibers(s.workers, s.fibers, s.nextFiber, s.place[tk := p], Cur(s, w), InCall(c, Registering));
  }

  lemma ArmLimitedOk(s: State, w: WorkerId, c: CallId)
    requires Inv(s) && RunsCall(s, w, c, Arming) && s.calls[c].limited
    ensures Inv(ArmCall(s, Cur(s, w), c))
  {
    assert s.fibers[Cur(s, w)].state.EXEC?;
    ArmCallPlaces(s, w, c);
    ArmCallFibers(s, w, c);
    assert !NoWork(s.workers[w]);
    ArmCounts(s, Invoke(Timeout(c)), false);
    ArmCallIs(s, w, c);
    ArmCallAt(s, w, c);
  }

  lemma ArmUnlimitedOk(s: State, w: WorkerId, c: CallId)
    requires Inv(s) && RunsCall(s, w, c, Arming) && !s.calls[c].limited
    ensures Inv(ArmCall(s, Cur(s, w), c))
  {
    var f := Cur(s, w);
    var fb := s.fibers[f].(prog := InCall(c, Registering));
    AtPoint(s, w, c, Arming);
    PointTimers(s, c);
    InsideFiber(s.fibers, s.place, f, fb);
    ProgFibers(s.workers, s.fibers, s.nextFiber, s.place, f, InCall(c, Registering));
    assert s.calls[c := s.calls[c]] == s.calls;
    CallMove(s.calls, s.fibers, s.timers, s.place, s.nextTimer, s.nextCall, f, fb, c, s.calls[c]);
  }

  // ---------------------------------------------------------------- register

  lemma RegisterMove(calls: map<CallId, CallInfo>, fibers: map<FiberId, Fiber>, timers: map<TimerId, Timer>,
                     place: map<Ticket, Place>, nt: nat, nc: nat, f: FiberId, fb: Fiber, c: CallId, ci: CallInfo, tk: Ticket)
    requires CallsInv(calls, fibers, timers, place, nt, nc) && Own(calls, fibers, f, c)
    requires fibers[f].prog == InCall(c, Registering) && fb == fibers[f].(prog := InCall(c, Suspending), wake := Some(tk))
    requires ci == calls[c].(ticket := Some(tk), attempts := calls[c].attempts + 1)
    requires At(place, tk, Registered(ci.key)) && tk.task == Wake(f)
    requires TimersFit(timers, nt, fibers[f], c, calls[c]) && RingFits(place, fibers, fibers[f], c, calls[c])
    requires !ci.timedOut
    ensures CallsInv(calls[c := ci], fibers[f := fb], timers, place, nt, nc)
  {
    CallMove(calls, fibers, timers, place, nt, nc, f, fb, c, ci);
  }

  lemma RegisterCallIs(s: State, w: WorkerId, c: CallId)
    requires RunsCall(s, w, c, Registering)
    ensures var f, s' := Cur(s, w), RegisterCall(s, Cur(s, w), c);
            var tk := Ticket(s.nextTicket, Wake(f));
            && s'.fibers == s.fibers[f := s.fibers[f].(prog := InCall(c, Suspending), wake := Some(tk))]
            && s'.calls == s.calls[c := s.calls[c].(ticket := Some(tk), attempts := s.calls[c].attempts + 1)]
            && s'.place == s.place[tk := Registered(s.calls[c].key)]
            && s'.timers == s.timers && s'.nextTimer == s.nextTimer && s'.nextCall == s.nextCall
  {
  }

  lemma RegisterCallCalls(calls: map<CallId, CallInfo>, fibers: map<FiberId, Fiber>, timers: map<TimerId, Timer>,
                          place: map<Ticket, Place>, nt: nat, nc: nat, s': State, f: FiberId, c: CallId, tk: Ticket)
    requires CallsInv(calls, fibers, timers, place, nt, nc) && Own(calls, fibers, f, c)
    requires fibers[f].prog == InCall(c, Registering) && tk !in place && tk.task == Wake(f)
    requires TimersFit(timers, nt, fibers[f], c, calls[c]) && RingFits(place, fibers, fibers[f], c, calls[c])
    requires !calls[c].timedOut
    requires s'.calls == calls[c := calls[c].(ticket := Some(tk), attempts := calls[c].attempts + 1)]
    requires s'.fibers == fibers[f := fibers[f].(prog := InCall(c, Suspending), wake := Some(tk))]
    requires s'.place == place[tk := Registered(calls[c].key)]
    requires s'.timers == timers && s'.nextTimer == nt && s'.nextCall == nc
    ensures CallsInv(s'.calls, s'.fibers, s'.timers, s'.place, s'.nextTimer, s'.nextCall)
  {
    var p := Registered(calls[c].key);
    FreshCalls(calls, fibers, timers, place, nt, nc, tk, p);
    RegisterMove(calls, fibers, timers, place[tk := p], nt, nc, f,
                 fibers[f].(prog := InCall(c, Suspending), wake := Some(tk)), c,
                 calls[c].(ticket := Some(tk), attempts := calls[c].attempts + 1), tk);
  }

  lemma AtRegistering(s: State, w: WorkerId, c: CallId)
    requires CallsInv(s.calls, s.fibers, s.timers, s.place, s.nextTimer, s.nextCall)
    requires FibersInv(s.workers, s.fibers, s.nextFiber, s.place)
    requires RunsCall(s, w, c, Registering)
    ensures var f := Cur(s, w);
            && Own(s.calls, s.fibers, f, c) && !s.calls[c].timedOut && s.fibers[f].prog == InCall(c, Registering)
            && TimersFit(s.timers, s.nextTimer, s.fibers[f], c, s.calls[c])
            && RingFits(s.place, s.fibers, s.fibers[f], c, s.calls[c])
  {
    AtPoint(s, w, c, Registering);
  }

  lemma RegisterCallAt(s: State, w: WorkerId, c: CallId)
    requires CallsInv(s.calls, s.fibers, s.timers, s.place, s.nextTimer, s.nextCall)
    requires RunsCall(s, w, c, Registering) && Ticket(s.nextTicket, Wake(Cur(s, w))) !in s.place
    requires Own(s.calls, s.fibers, Cur(s, w), c) && !s.calls[c].timedOut
    requires TimersFit(s.timers, s.nextTimer, s.fibers[Cur(s, w)], c, s.calls[c])
    requires RingFits(s.place, s.fibers, s.fibers[Cur(s, w)], c, s.calls[c])
    ensures var s' := RegisterCall(s, Cur(s, w), c); CallsInv(s'.calls, s'.fibers, s'.timers, s'.place, s'.nextTimer, s'.nextCall)
  {
    RegisterCallIs(s, w, c);
    RegisterCallCalls(s.calls, s.fibers, s.timers, s.place, s.nextTimer, s.nextCall, RegisterCall(s, Cur(s, w), c), Cur(s, w), c,
                      Ticket(s.nextTicket, Wake(Cur(s, w))));
  }

  lemma RegisterCallPlaces(s: State, w: WorkerId, c: CallId)
    requires PlacesInv(s) && RunsCall(s, w, c, Registering) && s.calls[c].key !in s.regs
    ensures PlacesInv(RegisterCall(s, Cur(s, w), c))
  {
    var f, k := Cur(s, w), s.calls[c].key;
    var s1 := Register(s, k, Wake(f));
    RegisterPlaces(s, k, Wake(f));
    InsideFiber(s1.fibers, s1.place, f, s1.fibers[f].(prog := InCall(c, Suspending)));
  }

  lemma RegisterCallFibers(s: State, w: WorkerId, c: CallId)
    requires FibersInv(s.workers, s.fibers, s.nextFiber, s.place) && IssuedOk(s.place, s.nextTicket)
    requires RunsCall(s, w, c, Registering) && NoWake(s.fibers, Wake(Cur(s, w))) && s.fibers[Cur(s, w)].state.EXEC?
    ensures var s' := RegisterCall(s, Cur(s, w), c); FibersInv(s'.workers, s'.fibers, s'.nextFiber, s'.place)
  {
    var f := Cur(s, w);
    var tk, p := Ticket(s.nextTicket, Wake(f)), Registered(s.calls[c].key);
    IssuedNew(s.place, tk, p);
    NewFibers(s.workers, s.fibers, s.nextFiber, s.place, tk, p);
    ProgFibers(s.workers, SetWake(s.fibers, Wake(f), Some(tk)), s.nextFiber, s.place[tk := p], f, InCall(c, Suspending));
  }

  lemma RegisterCallOk(s: State, w: WorkerId, c: CallId)
    requires Inv(s) && RunsCall(s, w, c, Registering) && s.calls[c].key !in s.regs
    ensures Inv(RegisterCall(s, Cur(s, w), c))
  {
    AtPoint(s, w, c, Registering);
    RegisterCallPlaces(s, w, c);
    RegisterCallFibers(s, w, c);
    assert !NoWork(s.workers[w]);
    RegisterCounts(s, s.calls[c].key, Wake(Cur(s, w)));
    AtRegistering(s, w, c);
    RegisterCallAt(s, w, c);
  }

  // ---------------------------------------------------------------- resume

  lemma SwapInAttempts(calls: map<CallId, CallInfo>, fibers: map<FiberId, Fiber>, place: map<Ticket, Place>, tk: Ticket, f: FiberId, fb: Fiber, c: CallId, ci: CallInfo)
    requires AttemptsOk(calls, fibers, place) && ProgsAgree(calls, fibers) && Own(calls, fibers, f, c)
    requires tk.task == Wake(f) && ci.fiber == f && AttemptOk(ci, fb, place[tk := Used])
    ensures AttemptsOk(calls[c := ci], fibers[f := fb], place[tk := Used])
  {
  }

  lemma SwapInCalls(s: State, w: WorkerId)
    requires CallsInv(s.calls, s.fibers, s.timers, s.place, s.nextTimer, s.nextCall)
    requires FibersInv(s.workers, s.fibers, s.nextFiber, s.place) && HandsOk(s.workers, s.place)
    requires w in s.workers && s.workers[w].pc.Hand?
    requires s.workers[w].pc.ticket.task.Wake? && s.workers[w].pc.ticket.task.fiber in s.fibers
    requires s.fibers[s.workers[w].pc.ticket.task.fiber].prog.InCall?
    ensures var s' := SwapIn(s, w); CallsInv(s'.calls, s'.fibers, s'.timers, s'.place, s'.nextTimer, s'.nextCall)
  {
    var tk := s.workers[w].pc.ticket;
    var f := tk.task.fiber;
    var c := s.fibers[f].prog.call;
    var s' := SwapIn(s, w);
    HandFiber(s, w);
    assert Own(s.calls, s.fibers, f, c);
    assert AttemptOk(s.calls[c], s.fibers[f], s.place);
    var fb, ci := s'.fibers[f], s'.calls[c];
    FiredPlace(s.calls, s.fibers, s.place, tk, Used);
    RingsPlace(s.calls, s.fibers, s.place, tk, Used);
    CallProgs(s.calls, s.fibers, s.nextCall, f, fb, c, ci);
    SwapInAttempts(s.calls, s.fibers, s.place, tk, f, fb, c, ci);
    CallTimers(s.calls, s.fibers, s.timers, s.nextTimer, f, fb, c, ci);
    CallFired(s.calls, s.fibers, s'.place, f, fb, c, ci);
    CallRings(s.calls, s.fibers, s'.place, f, fb, c, ci);
  }

  lemma SwapInOk(s: State, w: WorkerId)
    requires Inv(s) && w in s.workers && s.workers[w].pc.Hand?
    requires s.workers[w].pc.ticket.task.Wake? && s.workers[w].pc.ticket.task.fiber in s.fibers
    ensures Inv(SwapIn(s, w))
  {
    var tk := s.workers[w].pc.ticket;
    var f := tk.task.fiber;
    SwapInPlaces(s, w);
    SwapInFibers(s, w);
    SwapInCounts(s, w);
    if s.fibers[f].prog.InCall? {
      SwapInCalls(s, w);
    } else {
      SwapInFree(s.calls, s.fibers, s.timers, s.place, s.nextTimer, s.nextCall, tk, SwapIn(s, w).fibers[f]);
    }
  }

  // ---------------------------------------------------------------- cancelling the timer

  /** After `timer->cancel()` the call has no armed timer. */
  lemma NoTimerLeft(s: State, c: CallId)
    requires CallTimersOk(s.calls, s.fibers, s.timers, s.nextTimer) && c in s.calls
    ensures var s' := CancelCallTimer(s, c);
            forall t | t in s'.timers :: !IsTimeout(s'.timers[t].ticket.task, c)
  {
    PointTimers(s, c);
  }

  lemma CancelTimerOk(s: State, w: WorkerId, c: CallId, at: CallPoint)
    requires Inv(s) && RunsCall(s, w, c, at) && (at.Woken? || at.Failing?)
    ensures Inv(CancelCallTimer(s, c))
  {
    AtPoint(s, w, c, at);
    PointTimers(s, c);
    var t := s.calls[c].timer;
    if t.Some? && t.value in s.timers {
      DisarmOk(s, t.value);
    }
  }

  lemma CancelSame(s: State, w: WorkerId, c: CallId, at: CallPoint)
    requires RunsCall(s, w, c, at)
    ensures RunsCall(CancelCallTimer(s, c), w, c, at) && Cur(CancelCallTimer(s, c), w) == Cur(s, w)
  {
  }

  lemma FailCallOk(s: State, w: WorkerId, c: CallId)
    requires Inv(s) && RunsCall(s, w, c, Failing)
    ensures Inv(FailCall(s, Cur(s, w), c))
  {
    CancelTimerOk(s, w, c, Failing);
    NoTimerLeft(s, c);
    CancelSame(s, w, c, Failing);
    EndOk(CancelCallTimer(s, c), w, c, Failing, false);
  }

  lemma DisarmCallOk(s: State, w: WorkerId, c: CallId)
    requires Inv(s) && RunsCall(s, w, c, Woken)
    ensures Inv(SetProg(CancelCallTimer(s, c), Cur(s, w), InCall(c, Checking)))
  {
    CancelTimerOk(s, w, c, Woken);
    NoTimerLeft(s, c);
    CancelSame(s, w, c, Woken);
    StepOn(CancelCallTimer(s, c), w, c, Woken, Checking);
  }

  lemma NoTimerAt(s: State, w: WorkerId, c: CallId, at: CallPoint)
    requires FibersInv(s.workers, s.fibers, s.nextFiber, s.place)
    requires CallsInv(s.calls, s.fibers, s.timers, s.place, s.nextTimer, s.nextCall) && RunsCall(s, w, c, at) && !TimerPoint(at)
    ensures forall t | t in s.timers :: !IsTimeout(s.timers[t].ticket.task, c)
  {
    AtPoint(s, w, c, at);
  }

  /** A marked call returns with ETIMEDOUT; one that is not marked starts over if it retries, and
      returns otherwise. */
  lemma CheckCallOk(s: State, w: WorkerId, c: CallId)
    requires Inv(s) && RunsCall(s, w, c, Checking)
    ensures Inv(CheckCall(s, Cur(s, w), c))
    ensures Checked(s, CheckCall(s, Cur(s, w), c), Cur(s, w), c)
  {
    NoTimerAt(s, w, c, Checking);
    if s.calls[c].flag {
      EndOk(s, w, c, Checking, true);
    } else if s.calls[c].retries {
      StepOn(s, w, c, Checking, Trying);
    } else {
      EndOk(s, w, c, Checking, false);
    }
    CheckDoes(s, Cur(s, w), c);
  }

  predicate Checked(s: State, s': State, f: FiberId, c: CallId)
    requires c in s.calls
  {
    && c in s'.calls && f in s'.fibers
    && if !s.calls[c].flag && s.calls[c].retries then s'.calls == s.calls && s'.fibers[f].prog == InCall(c, Trying)
       else !s'.calls[c].alive && s'.calls[c].timedOut == s.calls[c].flag && s'.fibers[f].prog == Free
  }

  lemma CheckDoes(s: State, f: FiberId, c: CallId)
    requires f in s.fibers && c in s.calls
    ensures Checked(s, CheckCall(s, f, c), f, c)
  {
    if s.calls[c].flag {
      EndDoes(s, f, c, true);
    } else if s.calls[c].retries {
      assert CheckCall(s, f, c) == SetProg(s, f, InCall(c, Trying));
    } else {
      EndDoes(s, f, c, false);
    }
  }

  lemma EndDoes(s: State, f: FiberId, c: CallId, timedOut: bool)
    requires f in s.fibers && c in s.calls
    ensures var s' := EndCall(s, f, c, timedOut);
            && c in s'.calls && f in s'.fibers
            && !s'.calls[c].alive && s'.calls[c].timedOut == timedOut && s'.fibers[f].prog == Free
  {
  }

  // ---------------------------------------------------------------- the time-out lambda

  lemma LambdaFacts(s: State, w: WorkerId, c: CallId)
    requires Inv(s) && Running(s, w)
    requires s.fibers[Cur(s, w)].prog == Expiring(c) || s.fibers[Cur(s, w)].prog == Cancelling(c)
    ensures c in s.calls && s.calls[c].fired > 0 && ProgTicket(s.fibers[Cur(s, w)], c)
    ensures s.fibers[Cur(s, w)].state.EXEC?
  {
    var f := Cur(s, w);
    assert ProgTicket(s.fibers[f], c);
    assert At(s.place, s.fibers[f].job.value, Inside(f));
  }

  /** The lambda marks the call: nothing else about the call changes. */
  lemma FlagCalls(calls: map<CallId, CallInfo>, fibers: map<FiberId, Fiber>, timers: map<TimerId, Timer>,
                  place: map<Ticket, Place>, nt: nat, nc: nat, g: FiberId, fb: Fiber, c: CallId, ci: CallInfo)
    requires CallsInv(calls, fibers, timers, place, nt, nc) && c in calls && calls[c].alive && calls[c].fired > 0
    requires g in fibers && fibers[g].prog == Expiring(c) && fb == fibers[g].(prog := Cancelling(c))
    requires ci == calls[c].(flag := true)
    ensures CallsInv(calls[c := ci], fibers[g := fb], timers, place, nt, nc)
  {
    OutsiderProgs(calls, fibers, nc, g, fb);
    OutsiderAttempts(calls, fibers, place, g, fb);
    OutsiderTimers(calls, fibers, timers, nt, g, fb);
    FlagProgs(calls, fibers[g := fb], nc, c, ci);
    FlagAttempts(calls, fibers[g := fb], place, c, ci);
    FlagTimers(calls, fibers[g := fb], timers, nt, c, ci);
    FlagFired(calls, fibers, place, g, fb, c, ci);
    FlagRings(calls, fibers, place, g, fb, c, ci);
  }

  lemma FlagProgs(calls: map<CallId, CallInfo>, fibers: map<FiberId, Fiber>, n: nat, c: CallId, ci: CallInfo)
    requires ProgsOk(calls, fibers, n) && c in calls && ci == calls[c].(flag := true)
    ensures ProgsOk(calls[c := ci], fibers, n)
  {
  }

  lemma FlagAttempts(calls: map<CallId, CallInfo>, fibers: map<FiberId, Fiber>, place: map<Ticket, Place>, c: CallId, ci: CallInfo)
    requires AttemptsOk(calls, fibers, place) && c in calls && ci == calls[c].(flag := true)
    ensures AttemptsOk(calls[c := ci], fibers, place)
  {
  }

  lemma FlagTimers(calls: map<CallId, CallInfo>, fibers: map<FiberId, Fiber>, timers: map<TimerId, Timer>, n: nat, c: CallId, ci: CallInfo)
    requires CallTimersOk(calls, fibers, timers, n) && c in calls && ci == calls[c].(flag := true)
    ensures CallTimersOk(calls[c := ci], fibers, timers, n)
  {
  }

  lemma FlagFired(calls: map<CallId, CallInfo>, fibers: map<FiberId, Fiber>, place: map<Ticket, Place>, g: FiberId, fb: Fiber, c: CallId, ci: CallInfo)
    requires FiredOk(calls, fibers, place) && c in calls && calls[c].fired > 0 && calls[c].alive && ci == calls[c].(flag := true)
    requires g in fibers && fibers[g].prog == Expiring(c) && fb == fibers[g].(prog := Cancelling(c))
    ensures FiredOk(calls[c := ci], fibers[g := fb], place)
  {
  }

  lemma FlagRings(calls: map<CallId, CallInfo>, fibers: map<FiberId, Fiber>, place: map<Ticket, Place>, g: FiberId, fb: Fiber, c: CallId, ci: CallInfo)
    requires RingsOk(calls, fibers, place) && c in calls && ci == calls[c].(flag := true)
    requires g in fibers && fibers[g].prog == Expiring(c) && fb.prog == Cancelling(c)
    ensures RingsOk(calls[c := ci], fibers[g := fb], place)
  {
  }

  /** The lambda of a call that is over, or already marked, does nothing. */
  lemma IgnoreRings(calls: map<CallId, CallInfo>, fibers: map<FiberId, Fiber>, place: map<Ticket, Place>, g: FiberId, fb: Fiber, c: CallId)
    requires RingsOk(calls, fibers, place) && (c in calls ==> !calls[c].alive || calls[c].flag)
    requires g in fibers && fibers[g].prog == Expiring(c) && fb.prog == Free
    ensures RingsOk(calls, fibers[g := fb], place)
  {
  }

  lemma ExpireFlagOk(s: State, w: WorkerId, c: CallId)
    requires Inv(s) && RunsProg(s, w, Expiring(c)) && c in s.calls && s.calls[c].alive && !s.calls[c].flag
    ensures Inv(ExpireCall(s, Cur(s, w), c))
  {
    var g := Cur(s, w);
    var fb := s.fibers[g].(prog := Cancelling(c));
    LambdaFacts(s, w, c);
    InsideFiber(s.fibers, s.place, g, fb);
    ProgFibers(s.workers, s.fibers, s.nextFiber, s.place, g, Cancelling(c));
    FlagCalls(s.calls, s.fibers, s.timers, s.place, s.nextTimer, s.nextCall, g, fb, c, s.calls[c].(flag := true));
  }

  lemma FreeCalls(calls: map<CallId, CallInfo>, fibers: map<FiberId, Fiber>, timers: map<TimerId, Timer>,
                  place: map<Ticket, Place>, nt: nat, nc: nat, g: FiberId, fb: Fiber)
    requires CallsInv(calls, fibers, timers, place, nt, nc)
    requires g in fibers && !fibers[g].prog.InCall? && fb == fibers[g].(prog := Free)
    requires RingsOk(calls, fibers[g := fb], place)
    ensures CallsInv(calls, fibers[g := fb], timers, place, nt, nc)
  {
    OutsiderProgs(calls, fibers, nc, g, fb);
    OutsiderAttempts(calls, fibers, place, g, fb);
    OutsiderTimers(calls, fibers, timers, nt, g, fb);
    FiredQuiet(calls, fibers, place, g, fb);
  }

  lemma ExpireIgnoreOk(s: State, w: WorkerId, c: CallId)
    requires Inv(s) && RunsProg(s, w, Expiring(c)) && !(c in s.calls && s.calls[c].alive && !s.calls[c].flag)
    ensures Inv(ExpireCall(s, Cur(s, w), c))
  {
    var g := Cur(s, w);
    var fb := s.fibers[g].(prog := Free);
    LambdaFacts(s, w, c);
    InsideFiber(s.fibers, s.place, g, fb);
    ProgFibers(s.workers, s.fibers, s.nextFiber, s.place, g, Free);
    IgnoreRings(s.calls, s.fibers, s.place, g, fb, c);
    FreeCalls(s.calls, s.fibers, s.timers, s.place, s.nextTimer, s.nextCall, g, fb);
  }

  lemma CancelFreeOk(s: State, w: WorkerId, c: CallId)
    requires Inv(s) && RunsProg(s, w, Cancelling(c))
    ensures Inv(SetProg(s, Cur(s, w), Free))
  {
    var g := Cur(s, w);
    var fb := s.fibers[g].(prog := Free);
    LambdaFacts(s, w, c);
    InsideFiber(s.fibers, s.place, g, fb);
    ProgFibers(s.workers, s.fibers, s.nextFiber, s.place, g, Free);
    RingsQuiet(s.calls, s.fibers, s.place, g, fb);
    FreeCalls(s.calls, s.fibers, s.timers, s.place, s.nextTimer, s.nextCall, g, fb);
  }

  lemma CancelCallOk(s: State, w: WorkerId, c: CallId)
    requires Inv(s) && RunsProg(s, w, Cancelling(c)) && c in s.calls
    ensures Inv(CancelCall(s, Cur(s, w), c))
  {
    CancelFreeOk(s, w, c);
    var s' := SetProg(s, Cur(s, w), Free);
    if s.calls[c].key in s'.regs {
      FireOk(s', s.calls[c].key);
    }
  }

  // ---------------------------------------------------------------- the end of a sleep

  function Rouse(s: State, g: FiberId, f: FiberId): State
    requires g in s.fibers && f in s.fibers
  {
    SetProg(s.(fibers := s.fibers[f := s.fibers[f].(wake := None)]), g, Free)
  }

  lemma SleeperFacts(s: State, w: WorkerId, f: FiberId)
    requires Inv(s) && RunsProg(s, w, Resuming(f)) && f in s.fibers
    ensures var g := Cur(s, w);
            && s.fibers[g].state.EXEC?
            && s.fibers[g].job.Some? && At(s.place, s.fibers[g].job.value, Inside(g))
            && s.fibers[g].job.value.task == Invoke(Resume(f))
            && s.fibers[f].wake == s.fibers[g].job
            && !s.fibers[f].prog.InCall?
            && (s.fibers[f].spareOf.Some? ==> s.fibers[f].state.EXEC?)
  {
    var g := Cur(s, w);
    var tk := s.fibers[g].job.value;
    assert At(s.place, tk, Inside(g));
    assert Carries(tk.task) == Some(f) && CanResume(s.place[tk], tk.task, s.fibers);
    assert FiberOk(s.fibers[f]);
    if s.fibers[f].prog.InCall? {
      WakeInCall(s.calls, s.fibers, s.place, s.nextCall, f);
    }
  }

  /** The wake of a fiber in a call, if any, is a wake and not a callback. */
  lemma WakeInCall(calls: map<CallId, CallInfo>, fibers: map<FiberId, Fiber>, place: map<Ticket, Place>, n: nat, f: FiberId)
    requires ProgsOk(calls, fibers, n) && AttemptsOk(calls, fibers, place) && f in fibers && fibers[f].prog.InCall?
    ensures fibers[f].wake.Some? ==> fibers[f].wake.value.task.Wake?
  {
    var c := fibers[f].prog.call;
    assert AttemptOk(calls[c], fibers[f], place);
  }

  lemma RouseWakes(place: map<Ticket, Place>, fibers: map<FiberId, Fiber>, g: FiberId, f: FiberId, tk: Ticket)
    requires WakesOk(place, fibers) && g in fibers && f in fibers
    requires fibers[g].prog == Resuming(f) && At(place, tk, Inside(g)) && fibers[f].wake == Some(tk)
    ensures WakesOk(place, (fibers[f := fibers[f].(wake := None)])[g := fibers[f := fibers[f].(wake := None)][g].(prog := Free)])
  {
  }

  lemma RouseFibers(workers: map<WorkerId, Worker>, fibers: map<FiberId, Fiber>, n: nat, place: map<Ticket, Place>, g: FiberId, f: FiberId, tk: Ticket)
    requires FibersInv(workers, fibers, n, place) && g in fibers && f in fibers && fibers[g].state.EXEC?
    requires fibers[g].prog == Resuming(f) && At(place, tk, Inside(g)) && fibers[f].wake == Some(tk)
    ensures var fibers1 := fibers[f := fibers[f].(wake := None)];
            FibersInv(workers, fibers1[g := fibers1[g].(prog := Free)], n, place)
  {
    var fibers1 := fibers[f := fibers[f].(wake := None)];
    assert fibers1 == SetWake(fibers, Wake(f), None);
    WakeOnlyRuns(workers, fibers, Wake(f), None);
    WakeOnlyFibers(fibers, n, Wake(f), None);
    ProgRuns(workers, fibers1, g, fibers1[g].(prog := Free));
    RouseWakes(place, fibers, g, f, tk);
  }

  lemma RouseCalls(calls: map<CallId, CallInfo>, fibers: map<FiberId, Fiber>, timers: map<TimerId, Timer>,
                   place: map<Ticket, Place>, nt: nat, nc: nat, g: FiberId, f: FiberId)
    requires CallsInv(calls, fibers, timers, place, nt, nc) && g in fibers && f in fibers
    requires fibers[g].prog == Resuming(f) && !fibers[f].prog.InCall?
    ensures var fibers1 := fibers[f := fibers[f].(wake := None)];
            CallsInv(calls, fibers1[g := fibers1[g].(prog := Free)], timers, place, nt, nc)
  {
    var fibers1 := fibers[f := fibers[f].(wake := None)];
    var fb := fibers1[g].(prog := Free);
    SameProgCalls(calls, fibers, timers, place, nt, nc, f, fibers1[f]);
    RingsQuiet(calls, fibers1, place, g, fb);
    FreeCalls(calls, fibers1, timers, place, nt, nc, g, fb);
  }

  lemma RousePlaces(s: State, g: FiberId, f: FiberId)
    requires PlacesInv(s) && g in s.fibers && f in s.fibers
    ensures PlacesInv(Rouse(s, g, f))
  {
    var fibers1 := s.fibers[f := s.fibers[f].(wake := None)];
    InsideFiber(s.fibers, s.place, f, fibers1[f]);
    InsideFiber(fibers1, s.place, g, fibers1[g].(prog := Free));
  }

  lemma RouseOk(s: State, w: WorkerId, f: FiberId)
    requires Inv(s) && RunsProg(s, w, Resuming(f)) && f in s.fibers
    ensures Inv(Rouse(s, Cur(s, w), f)) && Wakeable(Rouse(s, Cur(s, w), f).fibers, Wake(f))
  {
    var g := Cur(s, w);
    SleeperFacts(s, w, f);
    RousePlaces(s, g, f);
    RouseFibers(s.workers, s.fibers, s.nextFiber, s.place, g, f, s.fibers[g].job.value);
    RouseCalls(s.calls, s.fibers, s.timers, s.place, s.nextTimer, s.nextCall, g, f);
  }

  lemma ResumeOk(s: State, w: WorkerId, f: FiberId)
    requires Inv(s) && RunsProg(s, w, Resuming(f)) && f in s.fibers
    ensures Inv(FinishResume(s, Cur(s, w), f))
  {
    RouseOk(s, w, f);
    var s' := Rouse(s, Cur(s, w), f);
    assert !NoWork(s'.workers[w]);
    PushOk(s', Wake(f), None);
  }
}
