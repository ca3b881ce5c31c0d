/**
  The invariant of the runtime, in groups that mention only the components they need, and
  the proof that every step keeps it.
*/
module RuntimeInvariant {
  import opened Prelude
  import opened Runtime

  // ---------------------------------------------------------------- where tickets are

  ghost predicate RegsOk(regs: map<Key, Ticket>, place: map<Ticket, Place>) {
    && (forall k | k in regs :: At(place, regs[k], Registered(k)))
    && (forall tk | tk in place && place[tk].Registered? :: place[tk].key in regs && regs[place[tk].key] == tk)
  }

  ghost predicate TimersOk(timers: map<TimerId, Timer>, place: map<Ticket, Place>, nextTimer: nat) {
    && (forall t | t in timers :: t < nextTimer && At(place, timers[t].ticket, Armed(t)) && timers[t].ticket.task.Invoke?)
    && (forall t | t in timers && timers[t].recurring :: timers[t].ticket.task.cb.User?)
    && (forall tk | tk in place && place[tk].Armed? :: place[tk].timer in timers && timers[place[tk].timer].ticket == tk)
  }

  ghost predicate InQueue(queue: seq<Entry>, tk: Ticket) {
    exists i :: 0 <= i < |queue| && queue[i].ticket == tk
  }

  ghost predicate QueueOk(queue: seq<Entry>, place: map<Ticket, Place>) {
    && (forall i | 0 <= i < |queue| :: At(place, queue[i].ticket, Queued))
    && (forall i, j | 0 <= i < j < |queue| :: queue[i].ticket != queue[j].ticket)
    && (forall tk | tk in place && place[tk].Queued? :: InQueue(queue, tk))
  }

  ghost predicate HandsOk(workers: map<WorkerId, Worker>, place: map<Ticket, Place>) {
    && (forall w | w in workers && workers[w].pc.Hand? :: At(place, workers[w].pc.ticket, InHand(w)))
    && (forall tk | tk in place && place[tk].InHand? ::
          place[tk].worker in workers && workers[place[tk].worker].pc == Hand(tk))
  }

  predicate Holds(wk: Worker, tk: Ticket) {
    wk.pc.Polling? && tk in wk.pc.cbs
  }

  ghost predicate CollectedOk(workers: map<WorkerId, Worker>, place: map<Ticket, Place>) {
    && (forall w, tk | w in workers && Holds(workers[w], tk) :: At(place, tk, Collected(w)))
    && (forall tk | tk in place && place[tk].Collected? ::
          place[tk].worker in workers && Holds(workers[place[tk].worker], tk) && tk.task.Invoke?)
  }

  ghost predicate InsideOk(fibers: map<FiberId, Fiber>, place: map<Ticket, Place>) {
    && (forall f | f in fibers && fibers[f].job.Some? ::
          At(place, fibers[f].job.value, Inside(f)) && fibers[f].job.value.task.Invoke?)
    && (forall tk | tk in place && place[tk].Inside? ::
          place[tk].fiber in fibers && fibers[place[tk].fiber].job == Some(tk))
  }

  ghost predicate IssuedOk(place: map<Ticket, Place>, next: nat) {
    && (forall tk | tk in place :: tk.serial < next)
    && |place| == next
  }

  // ---------------------------------------------------------------- who executes what

  ghost predicate RunsOk(workers: map<WorkerId, Worker>, fibers: map<FiberId, Fiber>) {
    && (forall w | w in workers && workers[w].pc.Run? ::
          var f := workers[w].pc.fiber;
          f in fibers && fibers[f].state == EXEC(w) && (workers[w].pc.hosted ==> workers[w].spare == Some(f)))
    && (forall f | f in fibers && fibers[f].state.EXEC? ::
          var w := fibers[f].state.worker;
          w in workers && workers[w].pc.Run? && workers[w].pc.fiber == f
          && (workers[w].pc.hosted || fibers[f].spareOf == None))
  }

  ghost predicate SparesOk(workers: map<WorkerId, Worker>, fibers: map<FiberId, Fiber>) {
    && (forall w | w in workers && workers[w].spare.Some? ::
          workers[w].spare.value in fibers && fibers[workers[w].spare.value].spareOf == Some(w))
    && (forall f | f in fibers && fibers[f].spareOf.Some? ::
          fibers[f].spareOf.value in workers && workers[fibers[f].spareOf.value].spare == Some(f))
  }

  /** What the state of a fiber says about its other fields. */
  ghost predicate FiberOk(fb: Fiber) {
    match fb.state
    case EXEC(w) => true
    case INIT =>
      && fb.prog == Free
      && fb.job == None
      && (fb.spareOf.Some? ==> fb.cb == None && fb.wake == None)
      && (fb.spareOf == None ==> fb.cb.Some?)
    case HOLD => fb.spareOf == None && (fb.prog == Free || (fb.prog.InCall? && fb.prog.at.Suspending?))
    case TERM => fb.spareOf == None && fb.prog == Free && fb.cb == None && fb.job == None
    case EXCEPT => fb.spareOf == None && fb.prog == Free && fb.job == None
  }

  ghost predicate FibersOk(fibers: map<FiberId, Fiber>, nextFiber: nat) {
    forall f | f in fibers :: f < nextFiber && FiberOk(fibers[f])
  }

  // ---------------------------------------------------------------- one wake per fiber

  /** A ticket at p can still resume the fiber it carries. */
  predicate CanResume(p: Place, t: Task, fibers: map<FiberId, Fiber>) {
    || p.Registered? || p.Armed? || p.Collected? || p.Queued? || p.InHand?
    || (p.Inside? && t.Invoke? && t.cb.Resume? && p.fiber in fibers && fibers[p.fiber].prog == Resuming(t.cb.sleeper))
  }

  ghost predicate WakesOk(place: map<Ticket, Place>, fibers: map<FiberId, Fiber>) {
    && (forall tk | tk in place && Carries(tk.task).Some? && CanResume(place[tk], tk.task, fibers) ::
          var f := Carries(tk.task).value;
          f in fibers && fibers[f].wake == Some(tk))
    && (forall f | f in fibers && fibers[f].wake.Some? ::
          var tk := fibers[f].wake.value;
          tk in place && Carries(tk.task) == Some(f) && CanResume(place[tk], tk.task, fibers))
    && (forall tk | tk in place && place[tk].InHand? && tk.task.Wake? && tk.task.fiber in fibers ::
          !fibers[tk.task.fiber].state.EXEC?)
    && (forall g | g in fibers && fibers[g].prog.Resuming? ::
          fibers[g].job.Some? && fibers[g].job.value.task == Invoke(Resume(fibers[g].prog.sleeper)))
  }

  // ---------------------------------------------------------------- counters

  predicate IsBusy(wk: Worker) {
    wk.pc.Hand? || wk.pc.Run?
  }

  predicate IsIdling(wk: Worker) {
    wk.pc.Idling? || wk.pc.Polling?
  }

  function Busy(workers: map<WorkerId, Worker>): set<WorkerId> {
    set w | w in workers && IsBusy(workers[w])
  }

  function InIdle(workers: map<WorkerId, Worker>): set<WorkerId> {
    set w | w in workers && IsIdling(workers[w])
  }

  ghost predicate CountsOk(workers: map<WorkerId, Worker>, active: int, idle: int) {
    active == |Busy(workers)| && idle == |InIdle(workers)|
  }

  /** Accepted registrations of a key = triggers + deletions + 1 if it is registered now. */
  ghost predicate HistoryOk(regs: map<Key, Ticket>, adds: map<Key, nat>, fires: map<Key, nat>, dels: map<Key, nat>) {
    forall k :: Count(adds, k) == Count(fires, k) + Count(dels, k) + (if k in regs then 1 else 0)
  }

  // ---------------------------------------------------------------- shutdown

  ghost predicate NoWork(w: Worker) {
    !w.pc.Hand? && !w.pc.Run? && !w.pc.Polling?
  }

  ghost predicate Quiet(queue: seq<Entry>, regs: map<Key, Ticket>, timers: map<TimerId, Timer>, workers: map<WorkerId, Worker>) {
    queue == [] && regs == map[] && timers == map[] && forall w | w in workers :: NoWork(workers[w])
  }

  ghost predicate StopOk(queue: seq<Entry>, regs: map<Key, Ticket>, timers: map<TimerId, Timer>,
                         workers: map<WorkerId, Worker>, stopping: bool)
  {
    && (forall w | w in workers && workers[w].pc.Left? :: workers[w].idleDone)
    && (forall w | w in workers && workers[w].idleDone :: stopping && !workers[w].pc.Idling? && !workers[w].pc.Polling?)
    && (workers != map[] && (forall w | w in workers :: workers[w].idleDone) ==> Quiet(queue, regs, timers, workers))
  }

  // ---------------------------------------------------------------- hooked calls

  predicate IsTimeout(t: Task, c: CallId) {
    t == Invoke(Timeout(c))
  }

  /** A call that exists is at one program point of one fiber. */
  ghost predicate ProgsOk(calls: map<CallId, CallInfo>, fibers: map<FiberId, Fiber>, nextCall: nat) {
    && (forall c | c in calls :: c < nextCall)
    && (forall f | f in fibers && fibers[f].prog.InCall? ::
          var c := fibers[f].prog.call;
          c in calls && calls[c].alive && calls[c].fiber == f)
    && (forall c | c in calls && calls[c].alive ::
          var f := calls[c].fiber;
          f in fibers && fibers[f].prog.InCall? && fibers[f].prog.call == c)
  }

  predicate HasPoint(c: CallId, calls: map<CallId, CallInfo>, fibers: map<FiberId, Fiber>) {
    c in calls && calls[c].fiber in fibers && fibers[calls[c].fiber].prog.InCall?
  }

  function Point(c: CallId, calls: map<CallId, CallInfo>, fibers: map<FiberId, Fiber>): CallPoint
    requires HasPoint(c, calls, fibers)
  {
    fibers[calls[c].fiber].prog.at
  }

  /** The registration of the current attempt: still registered, triggered and on its way
      to the fiber, or deleted by somebody. */
  predicate Suspended(ci: CallInfo, wake: Option<Ticket>, place: map<Ticket, Place>) {
    && ci.ticket.Some?
    && ci.ticket.value.task == Wake(ci.fiber)
    && ci.ticket.value in place
    && var p := place[ci.ticket.value];
    && (p == Registered(ci.key) || p.Queued? || p.InHand? || p.Deleted?)
    && wake == (if p.Deleted? then None else ci.ticket)
  }

  predicate AttemptOk(ci: CallInfo, fb: Fiber, place: map<Ticket, Place>) {
    if ci.alive && fb.prog.InCall? && fb.prog.at.Suspending?
    then Suspended(ci, fb.wake, place) && ci.attempts == ci.resumes + 1
    else ci.attempts == ci.resumes && (ci.alive ==> fb.wake == None)
  }

  ghost predicate AttemptsOk(calls: map<CallId, CallInfo>, fibers: map<FiberId, Fiber>, place: map<Ticket, Place>) {
    forall c | c in calls :: calls[c].fiber in fibers && AttemptOk(calls[c], fibers[calls[c].fiber], place)
  }

  /** Points at which the timer of the attempt may still be armed. */
  predicate TimerPoint(at: CallPoint) {
    at.Registering? || at.Suspending? || at.Woken? || at.Failing?
  }

  ghost predicate CallTimersOk(calls: map<CallId, CallInfo>, fibers: map<FiberId, Fiber>,
                               timers: map<TimerId, Timer>, nextTimer: nat)
  {
    && (forall t | t in timers && timers[t].ticket.task.Invoke? && timers[t].ticket.task.cb.Timeout? ::
          var c := timers[t].ticket.task.cb.call;
          && c in calls && calls[c].alive && calls[c].limited
          && calls[c].timer == Some(t)
          && HasPoint(c, calls, fibers) && TimerPoint(Point(c, calls, fibers)))
    && (forall c | c in calls && calls[c].timer.Some? ::
          var t := calls[c].timer.value;
          t < nextTimer && (t in timers ==> IsTimeout(timers[t].ticket.task, c)))
  }

  predicate TimeoutPlace(p: Place) {
    !p.Registered? && !p.Deleted?
  }

  predicate LateTimeout(p: Place) {
    !p.Armed? && !p.Cancelled?
  }

  ghost predicate FiredOk(calls: map<CallId, CallInfo>, fibers: map<FiberId, Fiber>, place: map<Ticket, Place>) {
    && (forall tk | tk in place && tk.task.Invoke? && tk.task.cb.Timeout? ::
          var c := tk.task.cb.call;
          c in calls && calls[c].limited && TimeoutPlace(place[tk]) && (LateTimeout(place[tk]) ==> calls[c].fired > 0))
    && (forall f | f in fibers && fibers[f].prog.Expiring? :: ProgTicket(fibers[f], fibers[f].prog.call))
    && (forall f | f in fibers && fibers[f].prog.Cancelling? ::
          ProgTicket(fibers[f], fibers[f].prog.call)
          && fibers[f].prog.call in calls && calls[fibers[f].prog.call].flag)
    && (forall c | c in calls && calls[c].flag :: calls[c].fired > 0)
    && (forall c | c in calls && calls[c].timedOut :: calls[c].flag && !calls[c].alive)
  }

  predicate ProgTicket(fb: Fiber, c: CallId) {
    fb.job.Some? && IsTimeout(fb.job.value.task, c)
  }

  /** The time-out of the current attempt has not looked at the flag yet. */
  predicate Ringing(tk: Ticket, c: CallId, place: map<Ticket, Place>, fibers: map<FiberId, Fiber>) {
    && tk in place
    && IsTimeout(tk.task, c)
    && var p := place[tk];
    || p.Armed? || p.Collected? || p.Queued? || p.InHand?
    || (p.Inside? && p.fiber in fibers && fibers[p.fiber].prog == Expiring(c))
  }

  ghost predicate RingsOk(calls: map<CallId, CallInfo>, fibers: map<FiberId, Fiber>, place: map<Ticket, Place>) {
    forall c | c in calls && calls[c].alive && calls[c].limited && !calls[c].flag && HasPoint(c, calls, fibers)
               && (Point(c, calls, fibers).Registering? || Point(c, calls, fibers).Suspending?) ::
      calls[c].ring.Some? && Ringing(calls[c].ring.value, c, place, fibers)
  }

  // ---------------------------------------------------------------- the invariant

  ghost predicate PlacesInv(s: State) {
    && RegsOk(s.regs, s.place)
    && TimersOk(s.timers, s.place, s.nextTimer)
    && QueueOk(s.queue, s.place)
    && HandsOk(s.workers, s.place)
    && CollectedOk(s.workers, s.place)
    && InsideOk(s.fibers, s.place)
    && IssuedOk(s.place, s.nextTicket)
  }

  ghost predicate FibersInv(workers: map<WorkerId, Worker>, fibers: map<FiberId, Fiber>, nextFiber: nat, place: map<Ticket, Place>) {
    && RunsOk(workers, fibers)
    && SparesOk(workers, fibers)
    && FibersOk(fibers, nextFiber)
    && WakesOk(place, fibers)
  }

  ghost predicate CallsInv(calls: map<CallId, CallInfo>, fibers: map<FiberId, Fiber>, timers: map<TimerId, Timer>,
                           place: map<Ticket, Place>, nextTimer: nat, nextCall: nat)
  {
    && ProgsOk(calls, fibers, nextCall)
    && AttemptsOk(calls, fibers, place)
    && CallTimersOk(calls, fibers, timers, nextTimer)
    && FiredOk(calls, fibers, place)
    && RingsOk(calls, fibers, place)
  }

  ghost predicate CountsInv(s: State) {
    && CountsOk(s.workers, s.active, s.idle)
    && HistoryOk(s.regs, s.adds, s.fires, s.dels)
    && StopOk(s.queue, s.regs, s.timers, s.workers, s.stopping)
  }

  ghost predicate Inv(s: State) {
    && PlacesInv(s)
    && FibersInv(s.workers, s.fibers, s.nextFiber, s.place)
    && CallsInv(s.calls, s.fibers, s.timers, s.place, s.nextTimer, s.nextCall)
    && CountsInv(s)
  }
}
