/**
  Swapping a fiber in and the end of its burst keep the invariant.
*/
module RuntimeFibers {
  import opened Prelude
  import opened Runtime
  import opened RuntimeInvariant
  import opened RuntimeFacts
  import opened RuntimeOperations
  import opened RuntimeWorkers

  // ---------------------------------------------------------------- who executes what

  lemma RunsStart(workers: map<WorkerId, Worker>, fibers: map<FiberId, Fiber>, w: WorkerId, wk: Worker, f: FiberId, fb: Fiber)
    requires RunsOk(workers, fibers) && w in workers && !workers[w].pc.Run?
    requires f in fibers ==> !fibers[f].state.EXEC?
    requires wk.pc.Run? && wk.pc.fiber == f && fb.state == EXEC(w)
    requires if wk.pc.hosted then wk.spare == Some(f) else fb.spareOf == None
    ensures RunsOk(workers[w := wk], fibers[f := fb])
  {
  }

  lemma RunsEnd(workers: map<WorkerId, Worker>, fibers: map<FiberId, Fiber>, w: WorkerId, wk: Worker, f: FiberId, fb: Fiber)
    requires RunsOk(workers, fibers) && w in workers && workers[w].pc.Run? && workers[w].pc.fiber == f
    requires !wk.pc.Run? && !fb.state.EXEC?
    ensures RunsOk(workers[w := wk], fibers[f := fb])
  {
  }

  lemma SparesSame(workers: map<WorkerId, Worker>, fibers: map<FiberId, Fiber>, w: WorkerId, wk: Worker, f: FiberId, fb: Fiber)
    requires SparesOk(workers, fibers) && w in workers && f in fibers
    requires wk.spare == workers[w].spare && fb.spareOf == fibers[f].spareOf
    ensures SparesOk(workers[w := wk], fibers[f := fb])
  {
  }

  lemma SparesHost(workers: map<WorkerId, Worker>, fibers: map<FiberId, Fiber>, w: WorkerId, wk: Worker, g: FiberId, fb: Fiber)
    requires SparesOk(workers, fibers) && w in workers
    requires if workers[w].spare.Some? then g == workers[w].spare.value else g !in fibers
    requires wk.spare == Some(g) && fb.spareOf == Some(w)
    ensures SparesOk(workers[w := wk], fibers[g := fb])
  {
  }

  lemma SparesRelease(workers: map<WorkerId, Worker>, fibers: map<FiberId, Fiber>, w: WorkerId, wk: Worker, f: FiberId, fb: Fiber)
    requires SparesOk(workers, fibers) && w in workers && workers[w].spare == Some(f)
    requires wk.spare == None && fb.spareOf == None
    ensures SparesOk(workers[w := wk], fibers[f := fb])
  {
  }

  lemma WakesState(place: map<Ticket, Place>, fibers: map<FiberId, Fiber>, f: FiberId, fb: Fiber)
    requires WakesOk(place, fibers) && f in fibers && fb.wake == fibers[f].wake
    requires !fb.state.EXEC? || fibers[f].state.EXEC?
    requires !fibers[f].prog.Resuming? && !fb.prog.Resuming?
    ensures WakesOk(place, fibers[f := fb])
  {
  }

  // ---------------------------------------------------------------- swapIn of a suspended fiber

  lemma SwapInPlaces(s: State, w: WorkerId)
    requires PlacesInv(s) && w in s.workers && s.workers[w].pc.Hand?
    requires s.workers[w].pc.ticket.task.Wake? && s.workers[w].pc.ticket.task.fiber in s.fibers
    ensures PlacesInv(SwapIn(s, w))
  {
    var s' := SwapIn(s, w);
    var tk := s.workers[w].pc.ticket;
    var f := tk.task.fiber;
    IssuedMove(s.place, s.nextTicket, tk, Used);
    RegsKeep(s.regs, s.place, tk, Used);
    TimersKeep(s.timers, s.place, s.nextTimer, tk, Used);
    QueueKeep(s.queue, s.place, tk, Used);
    HandsDrop(s.workers, s.place, w, s'.workers[w], Used);
    CollectedKeep(s.workers, s.place, tk, Used);
    CollectedMove(s.workers, s'.place, w, s'.workers[w]);
    InsideKeep(s.fibers, s.place, tk, Used);
    InsideFiber(s.fibers, s'.place, f, s'.fibers[f]);
  }

  lemma WakesSwapIn(place: map<Ticket, Place>, fibers: map<FiberId, Fiber>, tk: Ticket, fb: Fiber)
    requires WakesOk(place, fibers) && tk in place && place[tk].InHand? && tk.task.Wake? && tk.task.fiber in fibers
    requires fb.wake == None && !fb.prog.Resuming? && !fibers[tk.task.fiber].prog.Resuming?
    ensures WakesOk(place[tk := Used], fibers[tk.task.fiber := fb])
  {
  }

  /** The fiber named by a ticket in hand is suspended and nobody's idle cb_fiber. */
  lemma HandFiber(s: State, w: WorkerId)
    requires FibersInv(s.workers, s.fibers, s.nextFiber, s.place) && HandsOk(s.workers, s.place)
    requires w in s.workers && s.workers[w].pc.Hand? && s.workers[w].pc.ticket.task.Wake?
    ensures var tk := s.workers[w].pc.ticket;
            var f := tk.task.fiber;
            && At(s.place, tk, InHand(w))
            && f in s.fibers && s.fibers[f].wake == Some(tk)
            && !s.fibers[f].state.EXEC? && s.fibers[f].spareOf == None && FiberOk(s.fibers[f])
  {
  }

  lemma SwapInFibers(s: State, w: WorkerId)
    requires FibersInv(s.workers, s.fibers, s.nextFiber, s.place) && HandsOk(s.workers, s.place)
    requires w in s.workers && s.workers[w].pc.Hand?
    requires s.workers[w].pc.ticket.task.Wake? && s.workers[w].pc.ticket.task.fiber in s.fibers
    ensures var s' := SwapIn(s, w); FibersInv(s'.workers, s'.fibers, s'.nextFiber, s'.place)
  {
    var s' := SwapIn(s, w);
    var tk := s.workers[w].pc.ticket;
    var f := tk.task.fiber;
    HandFiber(s, w);
    RunsStart(s.workers, s.fibers, w, s'.workers[w], f, s'.fibers[f]);
    SparesSame(s.workers, s.fibers, w, s'.workers[w], f, s'.fibers[f]);
    WakesSwapIn(s.place, s.fibers, tk, s'.fibers[f]);
  }

  lemma SwapInCounts(s: State, w: WorkerId)
    requires CountsInv(s) && w in s.workers && s.workers[w].pc.Hand?
    requires s.workers[w].pc.ticket.task.Wake? && s.workers[w].pc.ticket.task.fiber in s.fibers
    ensures CountsInv(SwapIn(s, w))
  {
    var s' := SwapIn(s, w);
    WorkerCounts(s.workers, s.active, s.idle, w, s'.workers[w]);
    BusyStop(s.queue, s.regs, s.timers, s.workers, s.stopping, w, s'.workers[w]);
  }

  /** A fiber outside every call takes up its wake. */
  lemma SwapInFree(calls: map<CallId, CallInfo>, fibers: map<FiberId, Fiber>, timers: map<TimerId, Timer>,
                   place: map<Ticket, Place>, nt: nat, nc: nat, tk: Ticket, fb: Fiber)
    requires CallsInv(calls, fibers, timers, place, nt, nc)
    requires tk.task.Wake? && tk.task.fiber in fibers && !fibers[tk.task.fiber].prog.InCall?
    requires SameProg(fibers[tk.task.fiber], fb)
    ensures CallsInv(calls, fibers[tk.task.fiber := fb], timers, place[tk := Used], nt, nc)
  {
    AttemptsForget(calls, fibers, place, tk, Used);
    FiredPlace(calls, fibers, place, tk, Used);
    RingsPlace(calls, fibers, place, tk, Used);
    SameProgCalls(calls, fibers, timers, place[tk := Used], nt, nc, tk.task.fiber, fb);
  }

  lemma AttemptsForget(calls: map<CallId, CallInfo>, fibers: map<FiberId, Fiber>, place: map<Ticket, Place>, tk: Ticket, p: Place)
    requires AttemptsOk(calls, fibers, place) && ProgsAgree(calls, fibers)
    requires tk.task.Wake? && tk.task.fiber in fibers && !fibers[tk.task.fiber].prog.InCall?
    ensures AttemptsOk(calls, fibers, place[tk := p])
  {
  }

  // ---------------------------------------------------------------- swapIn of a callback

  lemma HostFacts(s: State, w: WorkerId)
    requires FibersInv(s.workers, s.fibers, s.nextFiber, s.place) && w in s.workers && s.workers[w].pc.Hand?
    ensures var g := Host(s, w);
            if s.workers[w].spare.Some?
            then g in s.fibers && s.fibers[g].state == INIT && s.fibers[g].cb == None && s.fibers[g].wake == None
                 && s.fibers[g].job == None && s.fibers[g].prog == Free
            else g !in s.fibers
  {
    if s.workers[w].spare.Some? {
      var g := s.workers[w].spare.value;
      assert FiberOk(s.fibers[g]);
      assert s.fibers[g].spareOf == Some(w);
    }
  }

  lemma HostPlaces(s: State, w: WorkerId)
    requires PlacesInv(s) && FibersInv(s.workers, s.fibers, s.nextFiber, s.place)
    requires w in s.workers && s.workers[w].pc.Hand? && s.workers[w].pc.ticket.task.Invoke?
    ensures PlacesInv(SwapInCallback(s, w))
  {
    var s' := SwapInCallback(s, w);
    var tk, g := s.workers[w].pc.ticket, Host(s, w);
    var p := Inside(g);
    HostFacts(s, w);
    IssuedMove(s.place, s.nextTicket, tk, p);
    RegsKeep(s.regs, s.place, tk, p);
    TimersKeep(s.timers, s.place, s.nextTimer, tk, p);
    QueueKeep(s.queue, s.place, tk, p);
    HandsDrop(s.workers, s.place, w, s'.workers[w], p);
    CollectedKeep(s.workers, s.place, tk, p);
    CollectedMove(s.workers, s'.place, w, s'.workers[w]);
    InsideEnter(s.fibers, s.place, g, s'.fibers[g], tk);
  }

  lemma WakesHost(place: map<Ticket, Place>, fibers: map<FiberId, Fiber>, tk: Ticket, g: FiberId, fb: Fiber)
    requires WakesOk(place, fibers) && tk in place && place[tk].InHand? && tk.task.Invoke?
    requires g in fibers ==> fibers[g].wake == None && !fibers[g].prog.Resuming?
    requires forall x | x in place :: place[x] != Inside(g)
    requires fb.wake == None && fb.prog == Start(tk.task.cb) && fb.job == Some(tk)
    ensures WakesOk(place[tk := Inside(g)], fibers[g := fb])
  {
  }

  lemma NothingInside(fibers: map<FiberId, Fiber>, place: map<Ticket, Place>, g: FiberId)
    requires InsideOk(fibers, place) && (g in fibers ==> fibers[g].job == None)
    ensures forall x | x in place :: place[x] != Inside(g)
  {
  }

  lemma HostFibers(s: State, w: WorkerId)
    requires FibersInv(s.workers, s.fibers, s.nextFiber, s.place) && HandsOk(s.workers, s.place)
    requires InsideOk(s.fibers, s.place)
    requires w in s.workers && s.workers[w].pc.Hand? && s.workers[w].pc.ticket.task.Invoke?
    ensures var s' := SwapInCallback(s, w); FibersInv(s'.workers, s'.fibers, s'.nextFiber, s'.place)
  {
    var s' := SwapInCallback(s, w);
    var tk, g := s.workers[w].pc.ticket, Host(s, w);
    HostFacts(s, w);
    RunsStart(s.workers, s.fibers, w, s'.workers[w], g, s'.fibers[g]);
    SparesHost(s.workers, s.fibers, w, s'.workers[w], g, s'.fibers[g]);
    NothingInside(s.fibers, s.place, g);
    WakesHost(s.place, s.fibers, tk, g, s'.fibers[g]);
  }

  lemma HostCounts(s: State, w: WorkerId)
    requires CountsInv(s) && w in s.workers && s.workers[w].pc.Hand? && s.workers[w].pc.ticket.task.Invoke?
    ensures CountsInv(SwapInCallback(s, w))
  {
    var s' := SwapInCallback(s, w);
    WorkerCounts(s.workers, s.active, s.idle, w, s'.workers[w]);
    BusyStop(s.queue, s.regs, s.timers, s.workers, s.stopping, w, s'.workers[w]);
  }

  lemma FiredHost(calls: map<CallId, CallInfo>, fibers: map<FiberId, Fiber>, place: map<Ticket, Place>, tk: Ticket, g: FiberId, fb: Fiber)
    requires FiredOk(calls, fibers, place) && tk in place && place[tk].InHand? && tk.task.Invoke?
    requires fb.prog == Start(tk.task.cb) && fb.job == Some(tk)
    ensures FiredOk(calls, fibers[g := fb], place[tk := Inside(g)])
  {
  }

  lemma RingsHost(calls: map<CallId, CallInfo>, fibers: map<FiberId, Fiber>, place: map<Ticket, Place>, tk: Ticket, g: FiberId, fb: Fiber)
    requires RingsOk(calls, fibers, place) && tk.task.Invoke?
    requires g in fibers ==> fibers[g].prog == Free
    requires fb.prog == Start(tk.task.cb)
    ensures RingsOk(calls, fibers[g := fb], place[tk := Inside(g)])
  {
  }

  lemma HostCalls(calls: map<CallId, CallInfo>, fibers: map<FiberId, Fiber>, timers: map<TimerId, Timer>,
                  place: map<Ticket, Place>, nt: nat, nc: nat, tk: Ticket, g: FiberId, fb: Fiber)
    requires CallsInv(calls, fibers, timers, place, nt, nc)
    requires tk in place && place[tk].InHand? && tk.task.Invoke?
    requires g in fibers ==> fibers[g].prog == Free
    requires fb.prog == Start(tk.task.cb) && fb.job == Some(tk)
    ensures CallsInv(calls, fibers[g := fb], timers, place[tk := Inside(g)], nt, nc)
  {
    OutsiderProgs(calls, fibers, nc, g, fb);
    AttemptsMove(calls, fibers, place, tk, Inside(g));
    OutsiderAttempts(calls, fibers, place[tk := Inside(g)], g, fb);
    OutsiderTimers(calls, fibers, timers, nt, g, fb);
    FiredHost(calls, fibers, place, tk, g, fb);
    RingsHost(calls, fibers, place, tk, g, fb);
  }

  lemma HostOk(s: State, w: WorkerId)
    requires Inv(s) && w in s.workers && s.workers[w].pc.Hand? && s.workers[w].pc.ticket.task.Invoke?
    ensures Inv(SwapInCallback(s, w))
  {
    var s' := SwapInCallback(s, w);
    var g := Host(s, w);
    HostFacts(s, w);
    HostPlaces(s, w);
    HostFibers(s, w);
    HostCounts(s, w);
    HostCalls(s.calls, s.fibers, s.timers, s.place, s.nextTimer, s.nextCall, s.workers[w].pc.ticket, g, s'.fibers[g]);
  }

  // ---------------------------------------------------------------- the end of a burst

  lemma EndHoldPlaces(s: State, w: WorkerId)
    requires PlacesInv(s) && Running(s, w)
    ensures PlacesInv(EndHold(s, w))
  {
    var s' := EndHold(s, w);
    var f := Cur(s, w);
    HandsMove(s.workers, s.place, w, s'.workers[w]);
    CollectedMove(s.workers, s.place, w, s'.workers[w]);
    InsideFiber(s.fibers, s.place, f, s'.fibers[f]);
  }

  lemma EndHoldFibers(s: State, w: WorkerId)
    requires FibersInv(s.workers, s.fibers, s.nextFiber, s.place) && Running(s, w)
    requires var p := s.fibers[Cur(s, w)].prog; p == Free || (p.InCall? && p.at.Suspending?)
    ensures var s' := EndHold(s, w); FibersInv(s'.workers, s'.fibers, s'.nextFiber, s'.place)
  {
    var s' := EndHold(s, w);
    var f := Cur(s, w);
    RunsEnd(s.workers, s.fibers, w, s'.workers[w], f, s'.fibers[f]);
    if s.workers[w].pc.hosted {
      SparesRelease(s.workers, s.fibers, w, s'.workers[w], f, s'.fibers[f]);
    } else {
      SparesSame(s.workers, s.fibers, w, s'.workers[w], f, s'.fibers[f]);
    }
    WakesState(s.place, s.fibers, f, s'.fibers[f]);
  }

  lemma EndCounts(s: State, w: WorkerId, s': State)
    requires CountsInv(s) && Running(s, w)
    requires w in s'.workers && s'.workers == s.workers[w := s'.workers[w]] && s'.workers[w].pc.Head? && s'.workers[w].idleDone == s.workers[w].idleDone
    requires s'.active == s.active - 1 && s'.idle == s.idle && s'.stopping == s.stopping
    requires s'.queue == s.queue && s'.timers == s.timers
    requires s'.regs == s.regs && s'.adds == s.adds && s'.fires == s.fires && s'.dels == s.dels
    ensures CountsInv(s')
  {
    WorkerCounts(s.workers, s.active, s.idle, w, s'.workers[w]);
    BusyStop(s.queue, s.regs, s.timers, s.workers, s.stopping, w, s'.workers[w]);
  }

  lemma EndHoldOk(s: State, w: WorkerId)
    requires Inv(s) && Running(s, w)
    requires var p := s.fibers[Cur(s, w)].prog; p == Free || (p.InCall? && p.at.Suspending?)
    ensures Inv(EndHold(s, w))
  {
    var s' := EndHold(s, w);
    var f := Cur(s, w);
    EndHoldPlaces(s, w);
    EndHoldFibers(s, w);
    EndCounts(s, w, s');
    SameProgCalls(s.calls, s.fibers, s.timers, s.place, s.nextTimer, s.nextCall, f, s'.fibers[f]);
  }

  lemma FinishPlaces(s: State, w: WorkerId, threw: bool)
    requires PlacesInv(s) && Running(s, w)
    ensures PlacesInv(EndFinish(s, w, threw))
  {
    var s' := EndFinish(s, w, threw);
    var f := Cur(s, w);
    HandsMove(s.workers, s.place, w, s'.workers[w]);
    CollectedMove(s.workers, s.place, w, s'.workers[w]);
    if s.fibers[f].job.Some? {
      var tk := s.fibers[f].job.value;
      IssuedMove(s.place, s.nextTicket, tk, Used);
      RegsKeep(s.regs, s.place, tk, Used);
      TimersKeep(s.timers, s.place, s.nextTimer, tk, Used);
      QueueKeep(s.queue, s.place, tk, Used);
      HandsKeep(s'.workers, s.place, tk, Used);
      CollectedKeep(s'.workers, s.place, tk, Used);
      InsideLeave(s.fibers, s.place, f, s'.fibers[f], Used);
    } else {
      InsideFiber(s.fibers, s.place, f, s'.fibers[f]);
    }
  }

  lemma WakesFinish(place: map<Ticket, Place>, fibers: map<FiberId, Fiber>, tk: Ticket)
    requires WakesOk(place, fibers) && tk in place && place[tk].Inside?
    requires place[tk].fiber in fibers && fibers[place[tk].fiber].prog.Free?
    ensures WakesOk(place[tk := Used], fibers)
  {
  }

  lemma FinishFibers(s: State, w: WorkerId, threw: bool)
    requires FibersInv(s.workers, s.fibers, s.nextFiber, s.place) && InsideOk(s.fibers, s.place)
    requires RunsProg(s, w, Free) && (s.workers[w].pc.hosted ==> s.fibers[Cur(s, w)].wake == None)
    ensures var s' := EndFinish(s, w, threw); FibersInv(s'.workers, s'.fibers, s'.nextFiber, s'.place)
  {
    var s' := EndFinish(s, w, threw);
    var f := Cur(s, w);
    RunsEnd(s.workers, s.fibers, w, s'.workers[w], f, s'.fibers[f]);
    SparesSame(s.workers, s.fibers, w, s'.workers[w], f, s'.fibers[f]);
    if s.fibers[f].job.Some? {
      WakesFinish(s.place, s.fibers, s.fibers[f].job.value);
    }
    WakesState(s'.place, s.fibers, f, s'.fibers[f]);
  }

  lemma FinishCalls(calls: map<CallId, CallInfo>, fibers: map<FiberId, Fiber>, timers: map<TimerId, Timer>,
                    place: map<Ticket, Place>, nt: nat, nc: nat, tk: Ticket)
    requires CallsInv(calls, fibers, timers, place, nt, nc) && tk in place && place[tk].Inside? && tk.task.Invoke?
    requires place[tk].fiber in fibers && fibers[place[tk].fiber].prog.Free?
    ensures CallsInv(calls, fibers, timers, place[tk := Used], nt, nc)
  {
    AttemptsMove(calls, fibers, place, tk, Used);
    FiredPlace(calls, fibers, place, tk, Used);
    RingsFinish(calls, fibers, place, tk, Used);
  }

  lemma FinishOutsider(calls: map<CallId, CallInfo>, fibers: map<FiberId, Fiber>, timers: map<TimerId, Timer>,
                       place: map<Ticket, Place>, nt: nat, nc: nat, f: FiberId, fb: Fiber)
    requires CallsInv(calls, fibers, timers, place, nt, nc)
    requires f in fibers && fibers[f].prog == Free && fb.prog == Free
    ensures CallsInv(calls, fibers[f := fb], timers, place, nt, nc)
  {
    OutsiderProgs(calls, fibers, nc, f, fb);
    OutsiderAttempts(calls, fibers, place, f, fb);
    OutsiderTimers(calls, fibers, timers, nt, f, fb);
    FiredQuiet(calls, fibers, place, f, fb);
    RingsQuiet(calls, fibers, place, f, fb);
  }

  lemma FiredQuiet(calls: map<CallId, CallInfo>, fibers: map<FiberId, Fiber>, place: map<Ticket, Place>, f: FiberId, fb: Fiber)
    requires FiredOk(calls, fibers, place) && !fb.prog.Expiring? && !fb.prog.Cancelling?
    ensures FiredOk(calls, fibers[f := fb], place)
  {
  }

  /** A fiber that does not, and did not, run a time-out lambda or a call. */
  lemma RingsQuiet(calls: map<CallId, CallInfo>, fibers: map<FiberId, Fiber>, place: map<Ticket, Place>, f: FiberId, fb: Fiber)
    requires RingsOk(calls, fibers, place)
    requires f in fibers ==> !fibers[f].prog.InCall? && !fibers[f].prog.Expiring?
    requires !fb.prog.InCall?
    ensures RingsOk(calls, fibers[f := fb], place)
  {
  }

  lemma FinishOk(s: State, w: WorkerId, threw: bool)
    requires Inv(s)
    requires RunsProg(s, w, Free) && (s.workers[w].pc.hosted ==> s.fibers[Cur(s, w)].wake == None)
    ensures Inv(EndFinish(s, w, threw))
  {
    var s' := EndFinish(s, w, threw);
    var f := Cur(s, w);
    FinishPlaces(s, w, threw);
    FinishFibers(s, w, threw);
    EndCounts(s, w, s');
    if s.fibers[f].job.Some? {
      FinishCalls(s.calls, s.fibers, s.timers, s.place, s.nextTimer, s.nextCall, s.fibers[f].job.value);
    }
    FinishOutsider(s.calls, s.fibers, s.timers, s'.place, s.nextTimer, s.nextCall, f, s'.fibers[f]);
  }

  // ---------------------------------------------------------------- a new fiber

  lemma NewFiberFibers(workers: map<WorkerId, Worker>, fibers: map<FiberId, Fiber>, g: FiberId, place: map<Ticket, Place>, fb: Fiber)
    requires FibersInv(workers, fibers, g, place)
    requires fb.state == INIT && fb.cb.Some? && fb.prog == Free && fb.job == None && fb.wake == None && fb.spareOf == None
    ensures g !in fibers && FibersInv(workers, fibers[g := fb], g + 1, place)
  {
    assert g !in fibers;
    NewFiberRuns(workers, fibers, g, fb);
    NewFiberWakes(place, fibers, g, fb);
  }

  lemma NewFiberCalls(calls: map<CallId, CallInfo>, fibers: map<FiberId, Fiber>, timers: map<TimerId, Timer>,
                      place: map<Ticket, Place>, nt: nat, nc: nat, g: FiberId, fb: Fiber)
    requires CallsInv(calls, fibers, timers, place, nt, nc) && g !in fibers && fb.prog == Free
    ensures CallsInv(calls, fibers[g := fb], timers, place, nt, nc)
  {
    OutsiderProgs(calls, fibers, nc, g, fb);
    OutsiderAttempts(calls, fibers, place, g, fb);
    OutsiderTimers(calls, fibers, timers, nt, g, fb);
    FiredQuiet(calls, fibers, place, g, fb);
    RingsQuiet(calls, fibers, place, g, fb);
  }

  lemma NewFiberPlaces(s: State, fb: Fiber)
    requires PlacesInv(s) && s.nextFiber !in s.fibers && fb.job == None
    ensures PlacesInv(s.(fibers := s.fibers[s.nextFiber := fb], nextFiber := s.nextFiber + 1))
  {
    InsideFiber(s.fibers, s.place, s.nextFiber, fb);
  }

  lemma NewFiberOk(s: State, fb: Fiber)
    requires Inv(s)
    requires fb.state == INIT && fb.cb.Some? && fb.prog == Free && fb.job == None && fb.wake == None && fb.spareOf == None
    ensures Inv(s.(fibers := s.fibers[s.nextFiber := fb], nextFiber := s.nextFiber + 1))
  {
    NewFiberFibers(s.workers, s.fibers, s.nextFiber, s.place, fb);
    NewFiberPlaces(s, fb);
    NewFiberCalls(s.calls, s.fibers, s.timers, s.place, s.nextTimer, s.nextCall, s.nextFiber, fb);
  }

  lemma NewFiberRuns(workers: map<WorkerId, Worker>, fibers: map<FiberId, Fiber>, g: FiberId, fb: Fiber)
    requires RunsOk(workers, fibers) && SparesOk(workers, fibers) && g !in fibers
    requires fb.state == INIT && fb.spareOf == None
    ensures RunsOk(workers, fibers[g := fb]) && SparesOk(workers, fibers[g := fb])
  {
  }

  lemma NewFiberWakes(place: map<Ticket, Place>, fibers: map<FiberId, Fiber>, g: FiberId, fb: Fiber)
    requires WakesOk(place, fibers) && g !in fibers && fb.wake == None && fb.state == INIT && fb.prog == Free
    ensures WakesOk(place, fibers[g := fb])
  {
  }

  lemma NewFiberReady(s: State, fb: Fiber)
    requires Acting(s) && fb.wake == None && fb.spareOf == None && fb.prog == Free
    ensures var s' := s.(fibers := s.fibers[s.nextFiber := fb], nextFiber := s.nextFiber + 1);
            Acting(s') && Wakeable(s'.fibers, Wake(s.nextFiber))
  {
  }

  lemma SpawnOk(s: State, n: nat, pin: Option<WorkerId>)
    requires Inv(s) && Acting(s)
    ensures Inv(Spawn(s, n, pin))
  {
    var fb := Fiber(INIT, Some(User(n)), Free, None, None, None);
    var s' := s.(fibers := s.fibers[s.nextFiber := fb], nextFiber := s.nextFiber + 1);
    NewFiberOk(s, fb);
    NewFiberReady(s, fb);
    PushOk(s', Wake(s.nextFiber), pin);
  }
}
