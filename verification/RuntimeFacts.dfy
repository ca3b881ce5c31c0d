/**
  What a single change of the history map or of one fiber does to each group of the
  invariant.  Every lemma mentions only the components its group reads.
*/
module RuntimeFacts {
  import opened Prelude
  import opened Runtime
  import opened RuntimeInvariant

  // ---------------------------------------------------------------- containers

  lemma RegsKeep(regs: map<Key, Ticket>, place: map<Ticket, Place>, tk: Ticket, p: Place)
    requires RegsOk(regs, place) && !p.Registered?
    requires tk in place ==> !place[tk].Registered?
    ensures RegsOk(regs, place[tk := p])
  {
  }

  lemma RegsAdd(regs: map<Key, Ticket>, place: map<Ticket, Place>, k: Key, tk: Ticket)
    requires RegsOk(regs, place) && k !in regs && tk !in place
    ensures RegsOk(regs[k := tk], place[tk := Registered(k)])
  {
  }

  lemma RegsRemove(regs: map<Key, Ticket>, place: map<Ticket, Place>, k: Key, p: Place)
    requires RegsOk(regs, place) && k in regs && !p.Registered?
    ensures RegsOk(regs - {k}, place[regs[k] := p])
  {
  }

  lemma TimersKeep(timers: map<TimerId, Timer>, place: map<Ticket, Place>, n: nat, tk: Ticket, p: Place)
    requires TimersOk(timers, place, n) && !p.Armed?
    requires tk in place ==> !place[tk].Armed?
    ensures TimersOk(timers, place[tk := p], n)
  {
  }

  lemma TimersAdd(timers: map<TimerId, Timer>, place: map<Ticket, Place>, n: nat, tm: Timer)
    requires TimersOk(timers, place, n) && tm.ticket !in place
    requires tm.ticket.task.Invoke? && (tm.recurring ==> tm.ticket.task.cb.User?)
    ensures TimersOk(timers[n := tm], place[tm.ticket := Armed(n)], n + 1)
  {
  }

  lemma TimersRemove(timers: map<TimerId, Timer>, place: map<Ticket, Place>, n: nat, t: TimerId, p: Place)
    requires TimersOk(timers, place, n) && t in timers && !p.Armed?
    ensures TimersOk(timers - {t}, place[timers[t].ticket := p], n)
  {
  }

  lemma QueueKeep(q: seq<Entry>, place: map<Ticket, Place>, tk: Ticket, p: Place)
    requires QueueOk(q, place) && !p.Queued?
    requires tk in place ==> !place[tk].Queued?
    ensures QueueOk(q, place[tk := p])
  {
  }

  lemma QueuePush(q: seq<Entry>, place: map<Ticket, Place>, e: Entry)
    requires QueueOk(q, place)
    requires e.ticket in place ==> !place[e.ticket].Queued?
    ensures QueueOk(q + [e], place[e.ticket := Queued])
  {
    var q' := q + [e];
    var place' := place[e.ticket := Queued];
    forall tk | tk in place' && place'[tk].Queued? ensures InQueue(q', tk) {
      if tk == e.ticket {
        assert q'[|q|].ticket == tk;
      } else {
        var i :| 0 <= i < |q| && q[i].ticket == tk;
        assert q'[i].ticket == tk;
      }
    }
  }

  lemma QueueTake(q: seq<Entry>, place: map<Ticket, Place>, i: nat, p: Place)
    requires QueueOk(q, place) && i < |q| && !p.Queued?
    ensures QueueOk(q[..i] + q[i + 1..], place[q[i].ticket := p])
  {
    var q' := q[..i] + q[i + 1..];
    var place' := place[q[i].ticket := p];
    forall tk | tk in place' && place'[tk].Queued? ensures InQueue(q', tk) {
      var j :| 0 <= j < |q| && q[j].ticket == tk;
      assert q'[if j < i then j else j - 1].ticket == tk;
    }
  }

  lemma HandsKeep(workers: map<WorkerId, Worker>, place: map<Ticket, Place>, tk: Ticket, p: Place)
    requires HandsOk(workers, place) && !p.InHand?
    requires tk in place ==> !place[tk].InHand?
    ensures HandsOk(workers, place[tk := p])
  {
  }

  lemma HandsTake(workers: map<WorkerId, Worker>, place: map<Ticket, Place>, w: WorkerId, wk: Worker, tk: Ticket)
    requires HandsOk(workers, place) && w in workers && !workers[w].pc.Hand? && wk.pc == Hand(tk)
    requires tk in place ==> !place[tk].InHand?
    ensures HandsOk(workers[w := wk], place[tk := InHand(w)])
  {
  }

  lemma HandsDrop(workers: map<WorkerId, Worker>, place: map<Ticket, Place>, w: WorkerId, wk: Worker, p: Place)
    requires HandsOk(workers, place) && w in workers && workers[w].pc.Hand? && !wk.pc.Hand? && !p.InHand?
    ensures HandsOk(workers[w := wk], place[workers[w].pc.ticket := p])
  {
  }

  lemma HandsMove(workers: map<WorkerId, Worker>, place: map<Ticket, Place>, w: WorkerId, wk: Worker)
    requires HandsOk(workers, place) && w in workers && !workers[w].pc.Hand? && !wk.pc.Hand?
    ensures HandsOk(workers[w := wk], place)
  {
  }

  lemma CollectedKeep(workers: map<WorkerId, Worker>, place: map<Ticket, Place>, tk: Ticket, p: Place)
    requires CollectedOk(workers, place) && !p.Collected?
    requires tk in place ==> !place[tk].Collected?
    ensures CollectedOk(workers, place[tk := p])
  {
  }

  lemma CollectedAdd(workers: map<WorkerId, Worker>, place: map<Ticket, Place>, w: WorkerId, wk: Worker, tk: Ticket)
    requires CollectedOk(workers, place) && w in workers && workers[w].pc.Polling?
    requires wk.pc == Polling(workers[w].pc.cbs + {tk}) && tk.task.Invoke?
    requires tk in place ==> !place[tk].Collected?
    ensures CollectedOk(workers[w := wk], place[tk := Collected(w)])
  {
    var workers', place' := workers[w := wk], place[tk := Collected(w)];
    forall v, x | v in workers' && Holds(workers'[v], x) ensures At(place', x, Collected(v)) {
      assert Holds(workers[v], x) || (x == tk && v == w);
    }
    forall x | x in place' && place'[x].Collected?
      ensures place'[x].worker in workers' && Holds(workers'[place'[x].worker], x) && x.task.Invoke?
    {
      assert x == tk || Holds(workers[place[x].worker], x);
    }
  }

  lemma CollectedRemove(workers: map<WorkerId, Worker>, place: map<Ticket, Place>, w: WorkerId, wk: Worker, tk: Ticket, p: Place)
    requires CollectedOk(workers, place) && w in workers && workers[w].pc.Polling? && tk in workers[w].pc.cbs
    requires wk.pc == Polling(workers[w].pc.cbs - {tk}) && !p.Collected?
    ensures CollectedOk(workers[w := wk], place[tk := p])
  {
    var workers', place' := workers[w := wk], place[tk := p];
    assert Holds(workers[w], tk);
    forall v, x | v in workers' && Holds(workers'[v], x) ensures At(place', x, Collected(v)) {
      assert Holds(workers[v], x);
    }
    forall x | x in place' && place'[x].Collected?
      ensures place'[x].worker in workers' && Holds(workers'[place'[x].worker], x) && x.task.Invoke?
    {
      assert Holds(workers[place[x].worker], x);
    }
  }

  /** The worker holds no collected callback before and after. */
  lemma CollectedMove(workers: map<WorkerId, Worker>, place: map<Ticket, Place>, w: WorkerId, wk: Worker)
    requires CollectedOk(workers, place) && w in workers
    requires workers[w].pc.Polling? ==> workers[w].pc.cbs == {}
    requires wk.pc.Polling? ==> wk.pc.cbs == {}
    ensures CollectedOk(workers[w := wk], place)
  {
  }

  lemma InsideKeep(fibers: map<FiberId, Fiber>, place: map<Ticket, Place>, tk: Ticket, p: Place)
    requires InsideOk(fibers, place) && !p.Inside?
    requires tk in place ==> !place[tk].Inside?
    ensures InsideOk(fibers, place[tk := p])
  {
  }

  lemma InsideFiber(fibers: map<FiberId, Fiber>, place: map<Ticket, Place>, f: FiberId, fb: Fiber)
    requires InsideOk(fibers, place) && (if f in fibers then fibers[f].job == fb.job else fb.job == None)
    ensures InsideOk(fibers[f := fb], place)
  {
  }

  lemma InsideEnter(fibers: map<FiberId, Fiber>, place: map<Ticket, Place>, f: FiberId, fb: Fiber, tk: Ticket)
    requires InsideOk(fibers, place) && fb.job == Some(tk) && tk.task.Invoke?
    requires f in fibers ==> fibers[f].job == None
    requires tk in place ==> !place[tk].Inside?
    ensures InsideOk(fibers[f := fb], place[tk := Inside(f)])
  {
  }

  lemma InsideLeave(fibers: map<FiberId, Fiber>, place: map<Ticket, Place>, f: FiberId, fb: Fiber, p: Place)
    requires InsideOk(fibers, place) && f in fibers && fibers[f].job.Some? && fb.job == None && !p.Inside?
    ensures InsideOk(fibers[f := fb], place[fibers[f].job.value := p])
  {
  }

  lemma IssuedNew(place: map<Ticket, Place>, tk: Ticket, p: Place)
    requires IssuedOk(place, tk.serial)
    ensures tk !in place && IssuedOk(place[tk := p], tk.serial + 1)
  {
  }

  lemma IssuedMove(place: map<Ticket, Place>, n: nat, tk: Ticket, p: Place)
    requires IssuedOk(place, n) && tk in place
    ensures IssuedOk(place[tk := p], n)
  {
    assert place[tk := p].Keys == place.Keys;
  }

  // ---------------------------------------------------------------- counters

  lemma BusyUpdate(workers: map<WorkerId, Worker>, w: WorkerId, wk: Worker)
    requires w in workers
    ensures |Busy(workers[w := wk])| ==
            |Busy(workers)| - (if IsBusy(workers[w]) then 1 else 0) + (if IsBusy(wk) then 1 else 0)
  {
    var rest := Busy(workers) - {w};
    var now := Busy(workers[w := wk]);
    assert now == if IsBusy(wk) then rest + {w} else rest;
    assert Busy(workers) == if IsBusy(workers[w]) then rest + {w} else rest;
  }

  lemma IdleUpdate(workers: map<WorkerId, Worker>, w: WorkerId, wk: Worker)
    requires w in workers
    ensures |InIdle(workers[w := wk])| ==
            |InIdle(workers)| - (if IsIdling(workers[w]) then 1 else 0) + (if IsIdling(wk) then 1 else 0)
  {
    var rest := InIdle(workers) - {w};
    var now := InIdle(workers[w := wk]);
    assert now == if IsIdling(wk) then rest + {w} else rest;
    assert InIdle(workers) == if IsIdling(workers[w]) then rest + {w} else rest;
  }

  // ---------------------------------------------------------------- a change of wake only

  lemma WakeOnlyInside(fibers: map<FiberId, Fiber>, place: map<Ticket, Place>, t: Task, o: Option<Ticket>)
    requires InsideOk(fibers, place)
    ensures InsideOk(SetWake(fibers, t, o), place)
  {
  }

  lemma WakeOnlyRuns(workers: map<WorkerId, Worker>, fibers: map<FiberId, Fiber>, t: Task, o: Option<Ticket>)
    requires RunsOk(workers, fibers) && SparesOk(workers, fibers)
    ensures RunsOk(workers, SetWake(fibers, t, o)) && SparesOk(workers, SetWake(fibers, t, o))
  {
  }

  lemma WakeOnlyFibers(fibers: map<FiberId, Fiber>, n: nat, t: Task, o: Option<Ticket>)
    requires FibersOk(fibers, n)
    requires o == None || NoWake(fibers, t)
    ensures FibersOk(SetWake(fibers, t, o), n)
  {
  }

  lemma WakeOnlyProgs(calls: map<CallId, CallInfo>, fibers: map<FiberId, Fiber>, n: nat, t: Task, o: Option<Ticket>)
    requires ProgsOk(calls, fibers, n)
    ensures ProgsOk(calls, SetWake(fibers, t, o), n)
  {
  }

  lemma WakeOnlyCallTimers(calls: map<CallId, CallInfo>, fibers: map<FiberId, Fiber>, timers: map<TimerId, Timer>, n: nat, t: Task, o: Option<Ticket>)
    requires CallTimersOk(calls, fibers, timers, n)
    ensures CallTimersOk(calls, SetWake(fibers, t, o), timers, n)
  {
  }

  lemma WakeOnlyFired(calls: map<CallId, CallInfo>, fibers: map<FiberId, Fiber>, place: map<Ticket, Place>, t: Task, o: Option<Ticket>)
    requires FiredOk(calls, fibers, place)
    ensures FiredOk(calls, SetWake(fibers, t, o), place)
  {
  }

  lemma WakeOnlyRings(calls: map<CallId, CallInfo>, fibers: map<FiberId, Fiber>, place: map<Ticket, Place>, t: Task, o: Option<Ticket>)
    requires RingsOk(calls, fibers, place)
    ensures RingsOk(calls, SetWake(fibers, t, o), place)
  {
  }

  // ---------------------------------------------------------------- wakes

  lemma WakesNew(place: map<Ticket, Place>, fibers: map<FiberId, Fiber>, tk: Ticket, p: Place)
    requires WakesOk(place, fibers) && tk !in place && NoWake(fibers, tk.task)
    requires p.Registered? || p.Armed? || p.Queued? || p.Collected?
    ensures WakesOk(place[tk := p], SetWake(fibers, tk.task, Some(tk)))
  {
  }

  lemma WakesMove(place: map<Ticket, Place>, fibers: map<FiberId, Fiber>, tk: Ticket, p: Place)
    requires WakesOk(place, fibers) && tk in place
    requires var q := place[tk]; q.Registered? || q.Armed? || q.Queued? || q.Collected?
    requires p.Queued? || p.Collected? || p.InHand?
    requires p.InHand? && tk.task.Wake? && tk.task.fiber in fibers ==> !fibers[tk.task.fiber].state.EXEC?
    ensures WakesOk(place[tk := p], fibers)
  {
  }

  lemma WakesRetire(place: map<Ticket, Place>, fibers: map<FiberId, Fiber>, tk: Ticket, p: Place)
    requires WakesOk(place, fibers) && tk in place
    requires var q := place[tk]; q.Registered? || q.Armed? || q.InHand?
    requires p.Deleted? || p.Dropped? || p.Cancelled?
    ensures WakesOk(place[tk := p], SetWake(fibers, tk.task, None))
  {
  }

  // ---------------------------------------------------------------- calls

  lemma AttemptsNew(calls: map<CallId, CallInfo>, fibers: map<FiberId, Fiber>, place: map<Ticket, Place>, tk: Ticket, p: Place)
    requires AttemptsOk(calls, fibers, place) && ProgsAgree(calls, fibers)
    requires tk !in place && Wakeable(fibers, tk.task)
    ensures AttemptsOk(calls, SetWake(fibers, tk.task, Some(tk)), place[tk := p])
  {
  }

  ghost predicate ProgsAgree(calls: map<CallId, CallInfo>, fibers: map<FiberId, Fiber>) {
    forall c | c in calls && calls[c].alive ::
      calls[c].fiber in fibers && fibers[calls[c].fiber].prog.InCall? && fibers[calls[c].fiber].prog.call == c
  }

  lemma AttemptsMove(calls: map<CallId, CallInfo>, fibers: map<FiberId, Fiber>, place: map<Ticket, Place>, tk: Ticket, p: Place)
    requires AttemptsOk(calls, fibers, place) && tk in place
    requires !place[tk].Deleted?
    requires tk.task.Wake? ==> p.Queued? || p.InHand?
    ensures AttemptsOk(calls, fibers, place[tk := p])
  {
  }

  lemma AttemptsRetire(calls: map<CallId, CallInfo>, fibers: map<FiberId, Fiber>, place: map<Ticket, Place>, tk: Ticket)
    requires AttemptsOk(calls, fibers, place) && WakesOk(place, fibers) && ProgsAgree(calls, fibers)
    requires tk in place && place[tk].Registered?
    ensures AttemptsOk(calls, SetWake(fibers, tk.task, None), place[tk := Deleted])
  {
  }

  lemma FiredPlace(calls: map<CallId, CallInfo>, fibers: map<FiberId, Fiber>, place: map<Ticket, Place>, tk: Ticket, p: Place)
    requires FiredOk(calls, fibers, place)
    requires tk.task.Invoke? && tk.task.cb.Timeout? ==>
               var c := tk.task.cb.call;
               c in calls && calls[c].limited && TimeoutPlace(p) && (LateTimeout(p) ==> calls[c].fired > 0)
    ensures FiredOk(calls, fibers, place[tk := p])
  {
  }

  lemma RingsPlace(calls: map<CallId, CallInfo>, fibers: map<FiberId, Fiber>, place: map<Ticket, Place>, tk: Ticket, p: Place)
    requires RingsOk(calls, fibers, place)
    requires (tk.task.Invoke? && tk.task.cb.Timeout? && tk in place) ==> p.Collected? || p.Queued? || p.InHand?
    ensures RingsOk(calls, fibers, place[tk := p])
  {
  }

  lemma CallTimersAdd(calls: map<CallId, CallInfo>, fibers: map<FiberId, Fiber>, timers: map<TimerId, Timer>, n: nat, tm: Timer)
    requires CallTimersOk(calls, fibers, timers, n)
    requires tm.ticket.task.Invoke? ==> !tm.ticket.task.cb.Timeout?
    ensures CallTimersOk(calls, fibers, timers[n := tm], n + 1)
  {
  }

  lemma CallTimersRemove(calls: map<CallId, CallInfo>, fibers: map<FiberId, Fiber>, timers: map<TimerId, Timer>, n: nat, t: TimerId)
    requires CallTimersOk(calls, fibers, timers, n)
    ensures CallTimersOk(calls, fibers, timers - {t}, n)
  {
  }

  /** A cancelled timer of a call whose attempt is over. */
  lemma RingsDisarm(calls: map<CallId, CallInfo>, fibers: map<FiberId, Fiber>, place: map<Ticket, Place>, tk: Ticket, p: Place)
    requires RingsOk(calls, fibers, place) && tk.task.Invoke?
    requires tk.task.cb.Timeout? ==>
               var c := tk.task.cb.call;
               HasPoint(c, calls, fibers) && !Point(c, calls, fibers).Registering? && !Point(c, calls, fibers).Suspending?
    ensures RingsOk(calls, fibers, place[tk := p])
  {
  }

  lemma RingsFinish(calls: map<CallId, CallInfo>, fibers: map<FiberId, Fiber>, place: map<Ticket, Place>, tk: Ticket, p: Place)
    requires RingsOk(calls, fibers, place)
    requires tk in place && place[tk].Inside? && place[tk].fiber in fibers && fibers[place[tk].fiber].prog.Free?
    ensures RingsOk(calls, fibers, place[tk := p])
  {
  }

  /** One more expiry is counted for a call. */
  lemma CallsExpiry(calls: map<CallId, CallInfo>, fibers: map<FiberId, Fiber>, timers: map<TimerId, Timer>,
                    place: map<Ticket, Place>, nt: nat, nc: nat, t: Task)
    requires CallsInv(calls, fibers, timers, place, nt, nc)
    ensures CallsInv(CountExpiry(calls, t), fibers, timers, place, nt, nc)
  {
    if t.Invoke? && t.cb.Timeout? && t.cb.call in calls {
      var c := t.cb.call;
      var ci := calls[c].(fired := calls[c].fired + 1);
      assert CountExpiry(calls, t) == calls[c := ci];
      ExpiryProgs(calls, fibers, nc, c, ci);
      ExpiryAttempts(calls, fibers, place, c, ci);
      ExpiryTimers(calls, fibers, timers, nt, c, ci);
      ExpiryFired(calls, fibers, place, c, ci);
      ExpiryRings(calls, fibers, place, c, ci);
    }
  }

  predicate Later(ci: CallInfo, ci': CallInfo) {
    ci' == ci.(fired := ci'.fired) && ci.fired <= ci'.fired
  }

  lemma ExpiryProgs(calls: map<CallId, CallInfo>, fibers: map<FiberId, Fiber>, n: nat, c: CallId, ci: CallInfo)
    requires ProgsOk(calls, fibers, n) && c in calls && Later(calls[c], ci)
    ensures ProgsOk(calls[c := ci], fibers, n)
  {
  }

  lemma ExpiryAttempts(calls: map<CallId, CallInfo>, fibers: map<FiberId, Fiber>, place: map<Ticket, Place>, c: CallId, ci: CallInfo)
    requires AttemptsOk(calls, fibers, place) && c in calls && Later(calls[c], ci)
    ensures AttemptsOk(calls[c := ci], fibers, place)
  {
  }

  lemma ExpiryTimers(calls: map<CallId, CallInfo>, fibers: map<FiberId, Fiber>, timers: map<TimerId, Timer>, n: nat, c: CallId, ci: CallInfo)
    requires CallTimersOk(calls, fibers, timers, n) && c in calls && Later(calls[c], ci)
    ensures CallTimersOk(calls[c := ci], fibers, timers, n)
  {
  }

  lemma ExpiryFired(calls: map<CallId, CallInfo>, fibers: map<FiberId, Fiber>, place: map<Ticket, Place>, c: CallId, ci: CallInfo)
    requires FiredOk(calls, fibers, place) && c in calls && Later(calls[c], ci)
    ensures FiredOk(calls[c := ci], fibers, place)
  {
  }

  lemma ExpiryRings(calls: map<CallId, CallInfo>, fibers: map<FiberId, Fiber>, place: map<Ticket, Place>, c: CallId, ci: CallInfo)
    requires RingsOk(calls, fibers, place) && c in calls && Later(calls[c], ci)
    ensures RingsOk(calls[c := ci], fibers, place)
  {
  }

  // ---------------------------------------------------------------- one worker

  /** The worker runs nothing before and after, and keeps its cb_fiber. */
  lemma WorkerMove(workers: map<WorkerId, Worker>, fibers: map<FiberId, Fiber>, w: WorkerId, wk: Worker)
    requires RunsOk(workers, fibers) && SparesOk(workers, fibers)
    requires w in workers && !workers[w].pc.Run? && !wk.pc.Run? && wk.spare == workers[w].spare
    ensures RunsOk(workers[w := wk], fibers) && SparesOk(workers[w := wk], fibers)
  {
  }

  // ---------------------------------------------------------------- one fiber

  /** What another component may see of a fiber is unchanged. */
  predicate SameProg(fb: Fiber, fb': Fiber) {
    fb'.prog == fb.prog && fb'.job == fb.job
  }

  lemma SameProgProgs(calls: map<CallId, CallInfo>, fibers: map<FiberId, Fiber>, n: nat, f: FiberId, fb: Fiber)
    requires ProgsOk(calls, fibers, n) && f in fibers && SameProg(fibers[f], fb)
    ensures ProgsOk(calls, fibers[f := fb], n)
  {
  }

  lemma SameProgAttempts(calls: map<CallId, CallInfo>, fibers: map<FiberId, Fiber>, place: map<Ticket, Place>, f: FiberId, fb: Fiber)
    requires AttemptsOk(calls, fibers, place) && ProgsAgree(calls, fibers) && f in fibers && SameProg(fibers[f], fb)
    requires fb.wake == fibers[f].wake || !fb.prog.InCall?
    ensures AttemptsOk(calls, fibers[f := fb], place)
  {
  }

  lemma SameProgTimers(calls: map<CallId, CallInfo>, fibers: map<FiberId, Fiber>, timers: map<TimerId, Timer>, n: nat, f: FiberId, fb: Fiber)
    requires CallTimersOk(calls, fibers, timers, n) && f in fibers && SameProg(fibers[f], fb)
    ensures CallTimersOk(calls, fibers[f := fb], timers, n)
  {
  }

  lemma SameProgFired(calls: map<CallId, CallInfo>, fibers: map<FiberId, Fiber>, place: map<Ticket, Place>, f: FiberId, fb: Fiber)
    requires FiredOk(calls, fibers, place) && f in fibers && SameProg(fibers[f], fb)
    ensures FiredOk(calls, fibers[f := fb], place)
  {
  }

  lemma SameProgRings(calls: map<CallId, CallInfo>, fibers: map<FiberId, Fiber>, place: map<Ticket, Place>, f: FiberId, fb: Fiber)
    requires RingsOk(calls, fibers, place) && f in fibers && SameProg(fibers[f], fb)
    ensures RingsOk(calls, fibers[f := fb], place)
  {
  }

  lemma SameProgCalls(calls: map<CallId, CallInfo>, fibers: map<FiberId, Fiber>, timers: map<TimerId, Timer>,
                      place: map<Ticket, Place>, nt: nat, nc: nat, f: FiberId, fb: Fiber)
    requires CallsInv(calls, fibers, timers, place, nt, nc) && f in fibers && SameProg(fibers[f], fb)
    requires fb.wake == fibers[f].wake || !fb.prog.InCall?
    ensures CallsInv(calls, fibers[f := fb], timers, place, nt, nc)
  {
    SameProgProgs(calls, fibers, nc, f, fb);
    SameProgAttempts(calls, fibers, place, f, fb);
    SameProgTimers(calls, fibers, timers, nt, f, fb);
    SameProgFired(calls, fibers, place, f, fb);
    SameProgRings(calls, fibers, place, f, fb);
  }

  /** The fiber is outside every call before and after, and not inside a time-out lambda
      afterwards. */
  predicate Outsider(fb: Fiber) {
    !fb.prog.InCall?
  }

  lemma OutsiderProgs(calls: map<CallId, CallInfo>, fibers: map<FiberId, Fiber>, n: nat, f: FiberId, fb: Fiber)
    requires ProgsOk(calls, fibers, n) && (f in fibers ==> Outsider(fibers[f])) && Outsider(fb)
    ensures ProgsOk(calls, fibers[f := fb], n)
  {
  }

  lemma OutsiderAttempts(calls: map<CallId, CallInfo>, fibers: map<FiberId, Fiber>, place: map<Ticket, Place>, f: FiberId, fb: Fiber)
    requires AttemptsOk(calls, fibers, place) && ProgsAgree(calls, fibers)
    requires (f in fibers ==> Outsider(fibers[f])) && Outsider(fb)
    ensures AttemptsOk(calls, fibers[f := fb], place)
  {
  }

  lemma OutsiderTimers(calls: map<CallId, CallInfo>, fibers: map<FiberId, Fiber>, timers: map<TimerId, Timer>, n: nat, f: FiberId, fb: Fiber)
    requires CallTimersOk(calls, fibers, timers, n)
    requires (f in fibers ==> Outsider(fibers[f])) && Outsider(fb)
    ensures CallTimersOk(calls, fibers[f := fb], timers, n)
  {
  }
}
