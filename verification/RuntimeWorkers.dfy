/**
  The steps of the worker loop and of the idle fiber keep the invariant.
*/
module RuntimeWorkers {
  import opened Prelude
  import opened Runtime
  import opened RuntimeInvariant
  import opened RuntimeFacts
  import opened RuntimeOperations

  // ---------------------------------------------------------------- idle: timers

  lemma CollectOncePlaces(s: State, w: WorkerId, t: TimerId)
    requires PlacesInv(s) && w in s.workers && s.workers[w].pc.Polling? && t in s.timers && !s.timers[t].recurring
    ensures PlacesInv(Collect(s, w, t))
  {
    var tk, p := s.timers[t].ticket, Collected(w);
    var wk := s.workers[w].(pc := Polling(s.workers[w].pc.cbs + {tk}));
    IssuedMove(s.place, s.nextTicket, tk, p);
    RegsKeep(s.regs, s.place, tk, p);
    TimersRemove(s.timers, s.place, s.nextTimer, t, p);
    QueueKeep(s.queue, s.place, tk, p);
    HandsKeep(s.workers, s.place, tk, p);
    HandsMove(s.workers, s.place[tk := p], w, wk);
    CollectedAdd(s.workers, s.place, w, wk, tk);
    InsideKeep(s.fibers, s.place, tk, p);
  }

  lemma CollectCopyPlaces(s: State, w: WorkerId, t: TimerId)
    requires PlacesInv(s) && w in s.workers && s.workers[w].pc.Polling? && t in s.timers && s.timers[t].recurring
    ensures PlacesInv(Collect(s, w, t))
  {
    var tk, p := Ticket(s.nextTicket, s.timers[t].ticket.task), Collected(w);
    var wk := s.workers[w].(pc := Polling(s.workers[w].pc.cbs + {tk}));
    IssuedNew(s.place, tk, p);
    RegsKeep(s.regs, s.place, tk, p);
    TimersKeep(s.timers, s.place, s.nextTimer, tk, p);
    QueueKeep(s.queue, s.place, tk, p);
    HandsKeep(s.workers, s.place, tk, p);
    HandsMove(s.workers, s.place[tk := p], w, wk);
    CollectedAdd(s.workers, s.place, w, wk, tk);
    InsideKeep(s.fibers, s.place, tk, p);
  }

  /** A worker that stays inside, or outside, the idle fiber and starts no task. */
  lemma WorkerCounts(workers: map<WorkerId, Worker>, active: int, idle: int, w: WorkerId, wk: Worker)
    requires CountsOk(workers, active, idle) && w in workers
    ensures CountsOk(workers[w := wk],
                     active - (if IsBusy(workers[w]) then 1 else 0) + (if IsBusy(wk) then 1 else 0),
                     idle - (if IsIdling(workers[w]) then 1 else 0) + (if IsIdling(wk) then 1 else 0))
  {
    BusyUpdate(workers, w, wk);
    IdleUpdate(workers, w, wk);
  }

  /** The worker has not seen its idle fiber terminate, so not all have. */
  lemma WorkerStop(queue: seq<Entry>, regs: map<Key, Ticket>, timers: map<TimerId, Timer>,
                   queue': seq<Entry>, regs': map<Key, Ticket>, timers': map<TimerId, Timer>,
                   workers: map<WorkerId, Worker>, stopping: bool, w: WorkerId, wk: Worker)
    requires StopOk(queue, regs, timers, workers, stopping) && w in workers
    requires !workers[w].idleDone && !wk.idleDone && !wk.pc.Left?
    ensures StopOk(queue', regs', timers', workers[w := wk], stopping)
  {
    assert !workers[w := wk][w].idleDone;
  }

  lemma CollectCounts(s: State, w: WorkerId, t: TimerId, s': State)
    requires CountsInv(s) && w in s.workers && s.workers[w].pc.Polling?
    requires s'.workers.Keys == s.workers.Keys && s'.workers == s.workers[w := s'.workers[w]]
    requires s'.workers[w].pc.Polling? && s'.workers[w].idleDone == s.workers[w].idleDone
    requires s'.active == s.active && s'.idle == s.idle && s'.stopping == s.stopping
    requires s'.regs == s.regs && s'.adds == s.adds && s'.fires == s.fires && s'.dels == s.dels
    ensures CountsInv(s')
  {
    WorkerCounts(s.workers, s.active, s.idle, w, s'.workers[w]);
    WorkerStop(s.queue, s.regs, s.timers, s'.queue, s'.regs, s'.timers, s.workers, s.stopping, w, s'.workers[w]);
  }

  lemma CollectCalls(s: State, t: TimerId, p: Place)
    requires CallsInv(s.calls, s.fibers, s.timers, s.place, s.nextTimer, s.nextCall)
    requires t in s.timers && At(s.place, s.timers[t].ticket, Armed(t)) && s.timers[t].ticket.task.Invoke? && p.Collected?
    ensures CallsInv(CountExpiry(s.calls, s.timers[t].ticket.task), s.fibers, s.timers - {t},
                     s.place[s.timers[t].ticket := p], s.nextTimer, s.nextCall)
  {
    var tk := s.timers[t].ticket;
    var calls' := CountExpiry(s.calls, tk.task);
    CallsExpiry(s.calls, s.fibers, s.timers, s.place, s.nextTimer, s.nextCall, tk.task);
    MoveCalls(calls', s.fibers, s.timers, s.place, s.nextTimer, s.nextCall, tk, p);
    CallTimersRemove(calls', s.fibers, s.timers, s.nextTimer, t);
  }

  lemma CollectOnceOk(s: State, w: WorkerId, t: TimerId)
    requires Inv(s) && w in s.workers && s.workers[w].pc.Polling? && t in s.timers && !s.timers[t].recurring
    ensures Inv(Collect(s, w, t))
  {
    var tk, s' := s.timers[t].ticket, Collect(s, w, t);
    CollectCounts(s, w, t, s');
    CollectOncePlaces(s, w, t);
    MoveFibers(s.workers, s.fibers, s.nextFiber, s.place, tk, Collected(w));
    WorkerMove(s.workers, s.fibers, w, s'.workers[w]);
    CollectCalls(s, t, Collected(w));
  }

  lemma CollectCopyOk(s: State, w: WorkerId, t: TimerId)
    requires Inv(s) && w in s.workers && s.workers[w].pc.Polling? && t in s.timers && s.timers[t].recurring
    ensures Inv(Collect(s, w, t))
  {
    var tk, s' := Ticket(s.nextTicket, s.timers[t].ticket.task), Collect(s, w, t);
    CollectCounts(s, w, t, s');
    CollectCopyPlaces(s, w, t);
    IssuedNew(s.place, tk, Collected(w));
    NewFibers(s.workers, s.fibers, s.nextFiber, s.place, tk, Collected(w));
    NewCalls(s.calls, s.fibers, s.timers, s.place, s.nextTimer, s.nextCall, tk, Collected(w));
    WorkerMove(s.workers, s.fibers, w, s'.workers[w]);
  }

  lemma SubmitPlaces(s: State, w: WorkerId, tk: Ticket)
    requires PlacesInv(s) && w in s.workers && s.workers[w].pc.Polling? && tk in s.workers[w].pc.cbs
    ensures PlacesInv(Submit(s, w, tk))
  {
    var wk := s.workers[w].(pc := Polling(s.workers[w].pc.cbs - {tk}));
    assert Holds(s.workers[w], tk);
    IssuedMove(s.place, s.nextTicket, tk, Queued);
    RegsKeep(s.regs, s.place, tk, Queued);
    TimersKeep(s.timers, s.place, s.nextTimer, tk, Queued);
    QueuePush(s.queue, s.place, Entry(tk, None));
    HandsKeep(s.workers, s.place, tk, Queued);
    HandsMove(s.workers, s.place[tk := Queued], w, wk);
    CollectedRemove(s.workers, s.place, w, wk, tk, Queued);
    InsideKeep(s.fibers, s.place, tk, Queued);
  }

  lemma SubmitCounts(s: State, w: WorkerId, tk: Ticket)
    requires CountsInv(s) && w in s.workers && s.workers[w].pc.Polling?
    ensures CountsInv(Submit(s, w, tk))
  {
    var s' := Submit(s, w, tk);
    WorkerCounts(s.workers, s.active, s.idle, w, s'.workers[w]);
    WorkerStop(s.queue, s.regs, s.timers, s'.queue, s'.regs, s'.timers, s.workers, s.stopping, w, s'.workers[w]);
  }

  lemma SubmitOk(s: State, w: WorkerId, tk: Ticket)
    requires Inv(s) && w in s.workers && s.workers[w].pc.Polling? && tk in s.workers[w].pc.cbs
    ensures Inv(Submit(s, w, tk))
  {
    assert Holds(s.workers[w], tk);
    SubmitPlaces(s, w, tk);
    SubmitCounts(s, w, tk);
    MoveFibers(s.workers, s.fibers, s.nextFiber, s.place, tk, Queued);
    WorkerMove(s.workers, s.fibers, w, Submit(s, w, tk).workers[w]);
    MoveCalls(s.calls, s.fibers, s.timers, s.place, s.nextTimer, s.nextCall, tk, Queued);
  }

  // ---------------------------------------------------------------- run: the queue

  lemma TakePlaces(s: State, w: WorkerId, i: nat)
    requires PlacesInv(s) && w in s.workers && s.workers[w].pc.Head? && i < |s.queue|
    ensures PlacesInv(Take(s, w, i))
  {
    var tk, p := s.queue[i].ticket, InHand(w);
    var wk := s.workers[w].(pc := Hand(tk));
    IssuedMove(s.place, s.nextTicket, tk, p);
    RegsKeep(s.regs, s.place, tk, p);
    TimersKeep(s.timers, s.place, s.nextTimer, tk, p);
    QueueTake(s.queue, s.place, i, p);
    HandsTake(s.workers, s.place, w, wk, tk);
    CollectedKeep(s.workers, s.place, tk, p);
    CollectedMove(s.workers, s.place[tk := p], w, wk);
    InsideKeep(s.fibers, s.place, tk, p);
  }

  lemma TakeStop(queue: seq<Entry>, regs: map<Key, Ticket>, timers: map<TimerId, Timer>,
                 queue': seq<Entry>, workers: map<WorkerId, Worker>, stopping: bool, w: WorkerId, wk: Worker)
    requires StopOk(queue, regs, timers, workers, stopping) && w in workers && queue != []
    requires wk.idleDone == workers[w].idleDone && !IsIdling(wk) && !wk.pc.Left?
    ensures StopOk(queue', regs, timers, workers[w := wk], stopping)
  {
    var v :| v in workers && !workers[v].idleDone;
    assert !workers[w := wk][v].idleDone;
  }

  lemma TakeCounts(s: State, w: WorkerId, i: nat)
    requires CountsInv(s) && w in s.workers && s.workers[w].pc.Head? && i < |s.queue|
    ensures CountsInv(Take(s, w, i))
  {
    var s' := Take(s, w, i);
    WorkerCounts(s.workers, s.active, s.idle, w, s'.workers[w]);
    TakeStop(s.queue, s.regs, s.timers, s'.queue, s.workers, s.stopping, w, s'.workers[w]);
  }

  lemma TakeOk(s: State, w: WorkerId, i: nat)
    requires Inv(s) && w in s.workers && s.workers[w].pc.Head? && i < |s.queue|
    requires Eligible(s.queue[i], w, s.fibers)
    ensures Inv(Take(s, w, i))
  {
    var tk, p := s.queue[i].ticket, InHand(w);
    TakePlaces(s, w, i);
    TakeCounts(s, w, i);
    MoveFibers(s.workers, s.fibers, s.nextFiber, s.place, tk, p);
    WorkerMove(s.workers, s.fibers, w, Take(s, w, i).workers[w]);
    MoveCalls(s.calls, s.fibers, s.timers, s.place, s.nextTimer, s.nextCall, tk, p);
  }

  // ---------------------------------------------------------------- run: dropping

  lemma DropPlaces(s: State, w: WorkerId)
    requires PlacesInv(s) && w in s.workers && s.workers[w].pc.Hand?
    ensures PlacesInv(Drop(s, w))
  {
    var tk := s.workers[w].pc.ticket;
    var wk := s.workers[w].(pc := Head);
    IssuedMove(s.place, s.nextTicket, tk, Dropped);
    RegsKeep(s.regs, s.place, tk, Dropped);
    TimersKeep(s.timers, s.place, s.nextTimer, tk, Dropped);
    QueueKeep(s.queue, s.place, tk, Dropped);
    HandsDrop(s.workers, s.place, w, wk, Dropped);
    CollectedKeep(s.workers, s.place, tk, Dropped);
    CollectedMove(s.workers, s.place[tk := Dropped], w, wk);
    InsideKeep(s.fibers, s.place, tk, Dropped);
    WakeOnlyInside(s.fibers, s.place[tk := Dropped], tk.task, None);
  }

  /** A worker at work: not all idle fibers can have terminated. */
  lemma BusyStop(queue: seq<Entry>, regs: map<Key, Ticket>, timers: map<TimerId, Timer>,
                 workers: map<WorkerId, Worker>, stopping: bool, w: WorkerId, wk: Worker)
    requires StopOk(queue, regs, timers, workers, stopping) && w in workers && IsBusy(workers[w])
    requires wk.idleDone == workers[w].idleDone && !IsIdling(wk) && !wk.pc.Left?
    ensures StopOk(queue, regs, timers, workers[w := wk], stopping)
  {
    assert !NoWork(workers[w]);
    var v :| v in workers && !workers[v].idleDone;
    assert !workers[w := wk][v].idleDone;
  }

  lemma DropCounts(s: State, w: WorkerId)
    requires CountsInv(s) && w in s.workers && s.workers[w].pc.Hand?
    ensures CountsInv(Drop(s, w))
  {
    var s' := Drop(s, w);
    WorkerCounts(s.workers, s.active, s.idle, w, s'.workers[w]);
    BusyStop(s.queue, s.regs, s.timers, s.workers, s.stopping, w, s'.workers[w]);
  }

  lemma DropAttempts(calls: map<CallId, CallInfo>, fibers: map<FiberId, Fiber>, place: map<Ticket, Place>, tk: Ticket)
    requires AttemptsOk(calls, fibers, place) && ProgsAgree(calls, fibers)
    requires tk.task.Wake? && tk.task.fiber in fibers && !fibers[tk.task.fiber].prog.InCall?
    ensures AttemptsOk(calls, SetWake(fibers, tk.task, None), place[tk := Dropped])
  {
  }

  lemma DropCalls(calls: map<CallId, CallInfo>, fibers: map<FiberId, Fiber>, timers: map<TimerId, Timer>,
                  place: map<Ticket, Place>, nt: nat, nc: nat, tk: Ticket)
    requires CallsInv(calls, fibers, timers, place, nt, nc)
    requires tk.task.Wake? && tk.task.fiber in fibers && !fibers[tk.task.fiber].prog.InCall?
    ensures CallsInv(calls, SetWake(fibers, tk.task, None), timers, place[tk := Dropped], nt, nc)
  {
    var fibers' := SetWake(fibers, tk.task, None);
    WakeOnlyProgs(calls, fibers, nc, tk.task, None);
    DropAttempts(calls, fibers, place, tk);
    WakeOnlyCallTimers(calls, fibers, timers, nt, tk.task, None);
    WakeOnlyFired(calls, fibers, place, tk.task, None);
    FiredPlace(calls, fibers', place, tk, Dropped);
    WakeOnlyRings(calls, fibers, place, tk.task, None);
    RingsPlace(calls, fibers', place, tk, Dropped);
  }

  lemma DropFibers(workers: map<WorkerId, Worker>, fibers: map<FiberId, Fiber>, n: nat, place: map<Ticket, Place>,
                   w: WorkerId, wk: Worker, tk: Ticket)
    requires FibersInv(workers, fibers, n, place) && tk in place && place[tk].InHand?
    requires w in workers && !workers[w].pc.Run? && !wk.pc.Run? && wk.spare == workers[w].spare
    ensures FibersInv(workers[w := wk], SetWake(fibers, tk.task, None), n, place[tk := Dropped])
  {
    var fibers' := SetWake(fibers, tk.task, None);
    WakeOnlyRuns(workers, fibers, tk.task, None);
    WakeOnlyFibers(fibers, n, tk.task, None);
    WakesRetire(place, fibers, tk, Dropped);
    WorkerMove(workers, fibers', w, wk);
  }

  lemma DropOk(s: State, w: WorkerId)
    requires Inv(s) && w in s.workers && s.workers[w].pc.Hand?
    requires var t := s.workers[w].pc.ticket.task;
             t.Wake? && t.fiber in s.fibers && (s.fibers[t.fiber].state.TERM? || s.fibers[t.fiber].state.EXCEPT?)
    ensures Inv(Drop(s, w))
  {
    var tk := s.workers[w].pc.ticket;
    assert FiberOk(s.fibers[tk.task.fiber]);
    DropPlaces(s, w);
    DropCounts(s, w);
    DropFibers(s.workers, s.fibers, s.nextFiber, s.place, w, s.workers[w].(pc := Head), tk);
    DropCalls(s.calls, s.fibers, s.timers, s.place, s.nextTimer, s.nextCall, tk);
  }

  // ---------------------------------------------------------------- plain moves of a worker

  lemma MovePlaces(s: State, w: WorkerId, wk: Worker)
    requires PlacesInv(s) && w in s.workers
    requires !s.workers[w].pc.Hand? && !wk.pc.Hand?
    requires s.workers[w].pc.Polling? ==> s.workers[w].pc.cbs == {}
    requires wk.pc.Polling? ==> wk.pc.cbs == {}
    ensures PlacesInv(s.(workers := s.workers[w := wk]))
  {
    HandsMove(s.workers, s.place, w, wk);
    CollectedMove(s.workers, s.place, w, wk);
  }

  /** Moves between Head, NoTask, Idling, Polling({}) and Left. */
  lemma MoveOk(s: State, w: WorkerId, wk: Worker, idle: int)
    requires Inv(s) && w in s.workers
    requires !IsBusy(s.workers[w]) && !IsBusy(wk) && wk.spare == s.workers[w].spare
    requires s.workers[w].pc.Polling? ==> s.workers[w].pc.cbs == {}
    requires wk.pc.Polling? ==> wk.pc.cbs == {}
    requires StopOk(s.queue, s.regs, s.timers, s.workers[w := wk], s.stopping)
    requires idle == s.idle - (if IsIdling(s.workers[w]) then 1 else 0) + (if IsIdling(wk) then 1 else 0)
    ensures Inv(Shift(s, w, wk, idle))
  {
    MovePlaces(s, w, wk);
    WorkerMove(s.workers, s.fibers, w, wk);
    WorkerCounts(s.workers, s.active, s.idle, w, wk);
  }

  lemma MoveStop(queue: seq<Entry>, regs: map<Key, Ticket>, timers: map<TimerId, Timer>,
                 workers: map<WorkerId, Worker>, stopping: bool, w: WorkerId, wk: Worker)
    requires StopOk(queue, regs, timers, workers, stopping) && w in workers
    requires wk.idleDone == workers[w].idleDone && (wk.idleDone ==> !IsIdling(wk)) && (wk.pc.Left? ==> wk.idleDone) && !IsBusy(wk)
    ensures StopOk(queue, regs, timers, workers[w := wk], stopping)
  {
    var workers' := workers[w := wk];
    if forall v | v in workers' :: workers'[v].idleDone {
      forall v | v in workers ensures workers[v].idleDone {
        assert workers'[v].idleDone;
      }
    }
  }

  /** The last check of the last worker sees a quiet runtime. */
  lemma LastCheckStop(s: State, w: WorkerId, wk: Worker)
    requires Inv(s) && w in s.workers && s.workers[w].pc.Idling? && MayStop(s)
    requires wk.idleDone && wk.pc.Head?
    ensures StopOk(s.queue, s.regs, s.timers, s.workers[w := wk], s.stopping)
  {
    var workers' := s.workers[w := wk];
    if forall v | v in workers' :: workers'[v].idleDone {
      forall v | v in workers' ensures NoWork(workers'[v]) {
        assert workers'[v].idleDone;
        if v != w {
          assert v !in Busy(s.workers);
        }
      }
    }
  }
}
