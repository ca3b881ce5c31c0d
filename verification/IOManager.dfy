/**
  The registry of IOManager: FdContext with its two EventContexts, m_pendingEventCount, the
  mask the kernel keeps for every descriptor, and the operations that keep them together.

  `regs` is the abstract state: which task waits for which (fd, event).  The kernel is the
  map `epoll`: ADD needs an absent descriptor, MOD and DEL a present one.  `denied` says
  that epoll_ctl fails for a reason of its own.
*/
module IOManager {
  import opened Prelude
  import opened Runtime

  /** A set of events, as the source keeps it in the bits of an integer. */
  datatype Bits = Bits(read: bool, write: bool) {
    predicate Has(e: Event) { if e == READ then read else write }
    function With(e: Event): Bits { if e == READ then this.(read := true) else this.(write := true) }
    function Minus(o: Bits): Bits { Bits(read && !o.read, write && !o.write) }
    function And(o: Bits): Bits { Bits(read && o.read, write && o.write) }
    function Or(o: Bits): Bits { Bits(read || o.read, write || o.write) }
    predicate Within(o: Bits) { (read ==> o.read) && (write ==> o.write) }
  }

  const NoEvents: Bits := Bits(false, false)

  function Only(e: Event): Bits {
    NoEvents.With(e)
  }

  /** `scheduler` tells whether it is non-null. */
  datatype EventContext = EventContext(scheduler: bool, fiber: Option<FiberId>, cb: Option<Callback>)

  const Empty: EventContext := EventContext(false, None, None)

  /** A context that holds exactly this task. */
  function Holding(t: Task): EventContext {
    match t
    case Wake(f) => EventContext(true, Some(f), None)
    case Invoke(cb) => EventContext(true, None, Some(cb))
  }

  class FdContext {
    const fd: nat
    var events: Bits
    var read: EventContext
    var write: EventContext

    constructor (fd: nat)
      ensures this.fd == fd && events == NoEvents && read == Empty && write == Empty
    {
      this.fd := fd;
      events, read, write := NoEvents, Empty, Empty;
    }

    /** getContext */
    function Context(event: Event): EventContext
      reads this
    {
      if event == READ then read else write
    }

    method SetContext(event: Event, ctx: EventContext)
      modifies this`read, this`write
      ensures read == if event == READ then ctx else old(read)
      ensures write == if event == WRITE then ctx else old(write)
    {
      if event == READ {
        read := ctx;
      } else {
        write := ctx;
      }
    }

    /** triggerEvent: the stored task is handed to schedule, which moves it out of the
        EventContext. */
    method Trigger(event: Event, ghost t: Task) returns (scheduled: Task)
      requires events.Has(event) && Context(event) == Holding(t)
      modifies this`events, this`read, this`write
      ensures scheduled == t
      ensures events == old(events).Minus(Only(event))
      ensures read == if event == READ then Empty else old(read)
      ensures write == if event == WRITE then Empty else old(write)
    {
      events := events.Minus(Only(event));
      var ctx := Context(event);
      if ctx.cb.Some? {
        scheduled := Invoke(ctx.cb.value);
        SetContext(event, ctx.(cb := None));
      } else {
        scheduled := Wake(ctx.fiber.value);
        SetContext(event, ctx.(fiber := None));
      }
      SetContext(event, Context(event).(scheduler := false));
    }
  }

  /** One event of a context agrees with the registrations of descriptor fd: a set bit means
      a scheduler and exactly one of fiber and callback, a clear bit an empty context. */
  predicate FitsAt(c: FdContext, fd: nat, e: Event, regs: map<Key, Task>)
    reads c
  {
    if Key(fd, e) in regs
    then c.events.Has(e) && c.Context(e) == Holding(regs[Key(fd, e)])
    else !c.events.Has(e) && c.Context(e) == Empty
  }

  predicate Fits(c: FdContext, fd: nat, regs: map<Key, Task>)
    reads c
  {
    c.fd == fd && FitsAt(c, fd, READ, regs) && FitsAt(c, fd, WRITE, regs)
  }

  /** The events registered for a descriptor. */
  function Mask(regs: map<Key, Task>, fd: nat): Bits {
    Bits(Key(fd, READ) in regs, Key(fd, WRITE) in regs)
  }

  /** The kernel knows exactly the descriptors with a registration, with those events. */
  ghost predicate Mirrors(regs: map<Key, Task>, epoll: map<nat, Bits>) {
    forall fd :: (fd in epoll <==> Mask(regs, fd) != NoEvents) && (fd in epoll ==> epoll[fd] == Mask(regs, fd))
  }

  datatype Op = ADD | MOD | DEL

  datatype Outcome = Handled(done: bool) | Aborted

  /** The events on which the dispatch of one reported event acts. */
  function Real(reported: Bits, hup: bool, events: Bits): Bits {
    if hup then reported.Or(events) else reported
  }

  /** The tasks of the given events of a descriptor, READ first. */
  function TasksOf(regs: map<Key, Task>, fd: nat, events: Bits): seq<Task> {
    (if events.read && Key(fd, READ) in regs then [regs[Key(fd, READ)]] else [])
    + (if events.write && Key(fd, WRITE) in regs then [regs[Key(fd, WRITE)]] else [])
  }

  function Without(regs: map<Key, Task>, fd: nat, events: Bits): map<Key, Task> {
    map k | k in regs && !(k.fd == fd && events.Has(k.event)) :: regs[k]
  }

  class IOManager {
    var contexts: seq<FdContext>       // m_fdContexts
    var pending: int                   // m_pendingEventCount
    var queue: seq<Task>               // what has been handed to Scheduler::schedule
    var epoll: map<nat, Bits>          // the kernel's side
    ghost var regs: map<Key, Task>

    /** Every context agrees with the registrations, and the pending counter is the number
        of set bits. */
    ghost predicate Coherent()
      reads this, contexts
    {
      && |contexts| >= 32
      && (forall i | 0 <= i < |contexts| :: Fits(contexts[i], i, regs))
      && (forall k | k in regs :: k.fd < |contexts|)
      && pending == |regs|
    }

    ghost predicate Valid()
      reads this, contexts
    {
      Coherent() && Mirrors(regs, epoll)
    }

    constructor ()
      ensures Valid() && regs == map[] && queue == [] && pending == 0
      ensures forall i | 0 <= i < |contexts| :: fresh(contexts[i])
    {
      contexts, pending, queue, epoll, regs := [], 0, [], map[], map[];
      new;
      ContextResize(32);
    }

    /** contextResize: the contexts below the size stay, new ones are empty.  A smaller size
        cuts contexts off, and the registrations of their descriptors with them; addEvent asks
        for one only if another thread has grown the vector between its two locks. */
    method ContextResize(size: nat)
      requires forall i | 0 <= i < |contexts| :: Fits(contexts[i], i, regs)
      requires forall k | k in regs :: k.fd < |contexts|
      modifies this`contexts
      ensures |contexts| == size
      ensures forall i | 0 <= i < size :: if i < |old(contexts)| then contexts[i] == old(contexts)[i] else fresh(contexts[i])
      ensures forall i | 0 <= i < |contexts| :: Fits(contexts[i], i, regs)
    {
      if size < |contexts| {
        contexts := contexts[..size];
        return;
      }
      ghost var n := |contexts|;
      while |contexts| < size
        invariant n <= |contexts| <= size
        invariant forall i | 0 <= i < |contexts| :: if i < n then contexts[i] == old(contexts)[i] else fresh(contexts[i])
        invariant forall i | 0 <= i < |contexts| :: Fits(contexts[i], i, regs)
        invariant forall k | k in regs :: k.fd < n
      {
        var c := new FdContext(|contexts|);
        contexts := contexts + [c];
      }
    }

    /** epoll_ctl: fails on an illegal operation, or for a reason of its own. */
    method Ctl(op: Op, fd: nat, mask: Bits, denied: bool) returns (rt: int)
      modifies this`epoll
      ensures rt == 0 <==> !denied && (op == ADD <==> fd !in old(epoll))
      ensures epoll == if rt != 0 then old(epoll) else if op == DEL then old(epoll) - {fd} else old(epoll)[fd := mask]
    {
      if denied || (if op == ADD then fd in epoll else fd !in epoll) {
        return -1;
      }
      epoll := if op == DEL then epoll - {fd} else epoll[fd := mask];
      return 0;
    }

    /** addEvent.  The event must not be registered yet and the caller runs on a scheduler
        thread.  It fails exactly if the kernel refuses for a reason of its own: the
        operation chosen is always legal. */
    method AddEvent(fd: nat, event: Event, cb: Option<Callback>, cur: FiberId, denied: bool) returns (rt: int)
      requires Valid() && Key(fd, event) !in regs
      modifies this, contexts
      ensures Valid() && |contexts| >= |old(contexts)|
      ensures forall i | 0 <= i < |contexts| ::
                if i < |old(contexts)| then contexts[i] == old(contexts)[i] else fresh(contexts[i])
      ensures rt == if denied then -1 else 0
      ensures regs == if denied then old(regs)
                      else old(regs)[Key(fd, event) := if cb.Some? then Invoke(cb.value) else Wake(cur)]
      ensures queue == old(queue)
    {
      if |contexts| <= fd {
        ContextResize(fd + fd / 2);
      }
      var c := contexts[fd];
      assert Fits(c, fd, regs);
      assert !c.events.Has(event);
      var op := if c.events != NoEvents then MOD else ADD;
      rt := Ctl(op, fd, c.events.With(event), denied);
      if rt != 0 {
        return -1;
      }
      MirrorsAdd(regs, old(epoll), Key(fd, event), if cb.Some? then Invoke(cb.value) else Wake(cur));
      Remember(fd, event, cb, cur);
    }

    /** The second half of addEvent: the counter, the bit and the EventContext. */
    method Remember(fd: nat, event: Event, cb: Option<Callback>, cur: FiberId)
      requires Coherent() && fd < |contexts| && Key(fd, event) !in regs
      modifies this`pending, this`regs, contexts[fd]
      ensures Coherent()
      ensures regs == old(regs)[Key(fd, event) := if cb.Some? then Invoke(cb.value) else Wake(cur)]
    {
      var c := contexts[fd];
      pending := pending + 1;
      c.events := c.events.With(event);
      assert c.Context(event) == Empty;
      if cb.Some? {
        c.SetContext(event, EventContext(true, None, cb));
      } else {
        c.SetContext(event, EventContext(true, Some(cur), None));
      }
      regs := regs[Key(fd, event) := if cb.Some? then Invoke(cb.value) else Wake(cur)];
    }

    /** delEvent: the stored fiber or callback is forgotten. */
    method DelEvent(fd: nat, event: Event, denied: bool) returns (ok: bool)
      requires Valid()
      modifies this, contexts
      ensures Valid() && contexts == old(contexts)
      ensures ok <==> Key(fd, event) in old(regs) && !denied
      ensures regs == if ok then old(regs) - {Key(fd, event)} else old(regs)
      ensures queue == old(queue)
    {
      if |contexts| <= fd {
        return false;
      }
      var c := contexts[fd];
      assert Fits(c, fd, regs);
      if !c.events.Has(event) {
        return false;
      }
      var left := c.events.Minus(Only(event));
      var rt := Ctl(if left != NoEvents then MOD else DEL, fd, left, denied);
      if rt != 0 {
        return false;
      }
      MirrorsDrop(regs, old(epoll), Key(fd, event));
      Forget(fd, event);
      return true;
    }

    /** The second half of delEvent. */
    method Forget(fd: nat, event: Event)
      requires Coherent() && fd < |contexts| && Key(fd, event) in regs
      modifies this`pending, this`regs, contexts[fd]
      ensures Coherent()
      ensures regs == old(regs) - {Key(fd, event)}
    {
      var c := contexts[fd];
      pending := pending - 1;
      c.events := c.events.Minus(Only(event));
      c.SetContext(event, Empty);
      regs := regs - {Key(fd, event)};
    }

    /** triggerEvent and the decrement that follows it everywhere. */
    method TriggerEvent(fd: nat, event: Event)
      requires Coherent() && fd < |contexts| && Key(fd, event) in regs
      modifies this`pending, this`queue, this`regs, contexts[fd]
      ensures Coherent()
      ensures regs == old(regs) - {Key(fd, event)}
      ensures queue == old(queue) + [old(regs)[Key(fd, event)]]
    {
      assert Fits(contexts[fd], fd, regs);
      var t := contexts[fd].Trigger(event, regs[Key(fd, event)]);
      queue := queue + [t];
      pending := pending - 1;
      regs := regs - {Key(fd, event)};
    }

    /** cancelEvent: the stored fiber or callback is scheduled at once. */
    method CancelEvent(fd: nat, event: Event, denied: bool) returns (ok: bool)
      requires Valid()
      modifies this, contexts
      ensures Valid() && contexts == old(contexts)
      ensures ok <==> Key(fd, event) in old(regs) && !denied
      ensures regs == if ok then old(regs) - {Key(fd, event)} else old(regs)
      ensures queue == if ok then old(queue) + [old(regs)[Key(fd, event)]] else old(queue)
    {
      if |contexts| <= fd {
        return false;
      }
      var c := contexts[fd];
      assert Fits(c, fd, regs);
      if !c.events.Has(event) {
        return false;
      }
      var left := c.events.Minus(Only(event));
      var rt := Ctl(if left != NoEvents then MOD else DEL, fd, left, denied);
      if rt != 0 {
        return false;
      }
      MirrorsDrop(regs, old(epoll), Key(fd, event));
      TriggerEvent(fd, event);
      return true;
    }

    /** The two `if(... & READ)`, `if(... & WRITE)` blocks: it aborts in triggerEvent if it
        comes to an event that is not registered. */
    method TriggerAll(fd: nat, events: Bits) returns (ok: bool)
      requires Coherent() && fd < |contexts|
      modifies this`pending, this`queue, this`regs, contexts[fd]
      ensures ok <==> events.Within(Mask(old(regs), fd))
      ensures ok ==> Coherent() && regs == Without(old(regs), fd, events)
      ensures ok ==> queue == old(queue) + TasksOf(old(regs), fd, events)
    {
      assert Fits(contexts[fd], fd, regs);
      if events.read {
        if !contexts[fd].events.read {
          return false;
        }
        TriggerEvent(fd, READ);
        assert Fits(contexts[fd], fd, regs);
      }
      if events.write {
        if !contexts[fd].events.write {
          return false;
        }
        TriggerEvent(fd, WRITE);
      }
      WithoutSteps(old(regs), fd, events);
      return true;
    }

    /** cancelAll: every registration of the descriptor is scheduled, READ first. */
    method CancelAll(fd: nat, denied: bool) returns (ok: bool)
      requires Valid()
      modifies this, contexts
      ensures Valid() && contexts == old(contexts)
      ensures ok <==> Mask(old(regs), fd) != NoEvents && !denied
      ensures regs == if ok then Without(old(regs), fd, Bits(true, true)) else old(regs)
      ensures queue == if ok then old(queue) + TasksOf(old(regs), fd, Bits(true, true)) else old(queue)
      // every registration of fd is gone, every other one kept
      ensures ok ==> forall k :: (k in regs <==> k in old(regs) && k.fd != fd) && (k in regs ==> regs[k] == old(regs)[k])
      // READ before WRITE
      ensures ok ==> queue == old(queue) + ((if Key(fd, READ) in old(regs) then [old(regs)[Key(fd, READ)]] else [])
                                            + (if Key(fd, WRITE) in old(regs) then [old(regs)[Key(fd, WRITE)]] else []))
    {
      if |contexts| <= fd {
        assert Key(fd, READ) !in regs && Key(fd, WRITE) !in regs;
        return false;
      }
      var c := contexts[fd];
      assert Fits(c, fd, regs);
      if c.events == NoEvents {
        return false;
      }
      var rt := Ctl(DEL, fd, NoEvents, denied);
      if rt != 0 {
        return false;
      }
      MirrorsRemove(regs, old(epoll), fd, c.events);
      WithoutMask(regs, fd);
      WithoutAll(regs, fd);
      ok := TriggerAll(fd, c.events);
      assert Fits(c, fd, regs);
      assert c.events == NoEvents;
    }

    /** The dispatch of one event reported by epoll_wait, with the mask of that report: the
        registrations may have changed since.  `Aborted` means that the assertion of
        triggerEvent fails, which happens exactly if the report names some registered event
        and also one that is not registered any more. */
    method Dispatch(fd: nat, reported: Bits, hup: bool, denied: bool) returns (r: Outcome)
      requires Valid() && fd < |contexts|
      modifies this, contexts
      ensures r == Aborted <==>
                (!denied && Real(reported, hup, Mask(old(regs), fd)).And(Mask(old(regs), fd)) != NoEvents
                 && !reported.Within(Mask(old(regs), fd)))
      ensures r == Handled(true) ==>
                var acted := Real(reported, hup, Mask(old(regs), fd));
                && Valid() && contexts == old(contexts) && acted.And(Mask(old(regs), fd)) != NoEvents
                && regs == Without(old(regs), fd, acted)
                && queue == old(queue) + TasksOf(old(regs), fd, acted)
      ensures r == Handled(false) ==> Valid() && contexts == old(contexts) && regs == old(regs) && queue == old(queue)
      ensures r == Handled(false) <==>
                denied || Real(reported, hup, Mask(old(regs), fd)).And(Mask(old(regs), fd)) == NoEvents
      // exactly when the assertion fails, event by event
      ensures var rd, wr := Key(fd, READ), Key(fd, WRITE);
              r == Aborted <==>
                && !denied
                && ((reported.read && rd in old(regs)) || (reported.write && wr in old(regs)) || (hup && (rd in old(regs) || wr in old(regs))))
                && ((reported.read && rd !in old(regs)) || (reported.write && wr !in old(regs)))
      // an error or a hang-up is a report of every registered event: all waiters of fd are scheduled, READ first
      ensures var rd, wr := Key(fd, READ), Key(fd, WRITE);
              !denied && hup && (rd in old(regs) || wr in old(regs))
              && (reported.read ==> rd in old(regs)) && (reported.write ==> wr in old(regs)) ==>
                && r == Handled(true)
                && (forall k :: (k in regs <==> k in old(regs) && k.fd != fd) && (k in regs ==> regs[k] == old(regs)[k]))
                && queue == old(queue) + (if rd in old(regs) then [old(regs)[rd]] else [])
                                       + (if wr in old(regs) then [old(regs)[wr]] else [])
      // without one exactly the reported events are acted on
      ensures var rd, wr := Key(fd, READ), Key(fd, WRITE);
              !denied && !hup && (reported.read || reported.write)
              && (reported.read ==> rd in old(regs)) && (reported.write ==> wr in old(regs)) ==>
                && r == Handled(true)
                && (forall k :: (k in regs <==> k in old(regs) && !(reported.read && k == rd) && !(reported.write && k == wr))
                                && (k in regs ==> regs[k] == old(regs)[k]))
                && queue == old(queue) + (if reported.read then [old(regs)[rd]] else [])
                                       + (if reported.write then [old(regs)[wr]] else [])
      // and nothing happens if nothing registered is reported
      ensures !hup && !(reported.read && Key(fd, READ) in old(regs)) && !(reported.write && Key(fd, WRITE) in old(regs)) ==>
                r == Handled(false)
    {
      ghost var was := regs;
      r := DispatchReport(fd, reported, hup, denied);
      ActedOn(was, fd, reported);
      WithoutAll(was, fd);
      WithoutMask(was, fd);
    }

    /** The same, in terms of the events acted on. */
    method DispatchReport(fd: nat, reported: Bits, hup: bool, denied: bool) returns (r: Outcome)
      requires Valid() && fd < |contexts|
      modifies this, contexts
      ensures r == Aborted <==>
                (!denied && Real(reported, hup, Mask(old(regs), fd)).And(Mask(old(regs), fd)) != NoEvents
                 && !reported.Within(Mask(old(regs), fd)))
      ensures r == Handled(true) ==>
                var acted := Real(reported, hup, Mask(old(regs), fd));
                && Valid() && contexts == old(contexts) && acted.And(Mask(old(regs), fd)) != NoEvents
                && regs == Without(old(regs), fd, acted)
                && queue == old(queue) + TasksOf(old(regs), fd, acted)
      ensures r == Handled(false) ==> Valid() && contexts == old(contexts) && regs == old(regs) && queue == old(queue)
      ensures r == Handled(false) <==>
                denied || Real(reported, hup, Mask(old(regs), fd)).And(Mask(old(regs), fd)) == NoEvents
    {
      var c := contexts[fd];
      assert Fits(c, fd, regs);
      var acted := if hup then reported.Or(c.events) else reported;
      if c.events.And(acted) == NoEvents {
        return Handled(false);
      }
      var left := c.events.Minus(acted);
      var rt := Ctl(if left != NoEvents then MOD else DEL, fd, left, denied);
      if rt != 0 {
        return Handled(false);
      }
      MirrorsRemove(regs, old(epoll), fd, acted);
      var ok := TriggerAll(fd, acted);
      return if ok then Handled(true) else Aborted;
    }
  }

  /** A report that was harvested before a delEvent and dispatched after it aborts. */
  method StaleReportAborts() returns (r: Outcome)
    ensures r == Aborted
  {
    var iom := new IOManager();
    var rt1 := iom.AddEvent(5, READ, None, 0, false);
    var rt2 := iom.AddEvent(5, WRITE, Some(User(1)), 0, false);
    var deleted := iom.DelEvent(5, WRITE, false);
    r := iom.Dispatch(5, Bits(true, true), false, false);
  }

  lemma MirrorsAdd(regs: map<Key, Task>, epoll: map<nat, Bits>, k: Key, t: Task)
    requires Mirrors(regs, epoll)
    ensures Mirrors(regs[k := t], epoll[k.fd := Mask(regs, k.fd).With(k.event)])
  {
  }

  lemma MirrorsDrop(regs: map<Key, Task>, epoll: map<nat, Bits>, k: Key)
    requires Mirrors(regs, epoll)
    ensures var left := Mask(regs, k.fd).Minus(Only(k.event));
            Mirrors(regs - {k}, if left == NoEvents then epoll - {k.fd} else epoll[k.fd := left])
  {
  }

  lemma MirrorsRemove(regs: map<Key, Task>, epoll: map<nat, Bits>, fd: nat, events: Bits)
    requires Mirrors(regs, epoll)
    ensures var left := Mask(regs, fd).Minus(events);
            Mirrors(Without(regs, fd, events), if left == NoEvents then epoll - {fd} else epoll[fd := left])
  {
  }

  lemma WithoutSteps(regs: map<Key, Task>, fd: nat, events: Bits)
    ensures var regs1 := if events.read then regs - {Key(fd, READ)} else regs;
            Without(regs, fd, events) == if events.write then regs1 - {Key(fd, WRITE)} else regs1
  {
  }

  lemma WithoutAll(regs: map<Key, Task>, fd: nat)
    ensures var left := Without(regs, fd, Bits(true, true));
            forall k :: (k in left <==> k in regs && k.fd != fd) && (k in left ==> left[k] == regs[k])
    ensures TasksOf(regs, fd, Bits(true, true))
            == (if Key(fd, READ) in regs then [regs[Key(fd, READ)]] else [])
               + (if Key(fd, WRITE) in regs then [regs[Key(fd, WRITE)]] else [])
  {
  }

  lemma ActedOn(regs: map<Key, Task>, fd: nat, events: Bits)
    ensures var left := Without(regs, fd, events);
            forall k :: (k in left <==> k in regs && !(events.read && k == Key(fd, READ)) && !(events.write && k == Key(fd, WRITE)))
                        && (k in left ==> left[k] == regs[k])
    ensures TasksOf(regs, fd, events)
            == (if events.read && Key(fd, READ) in regs then [regs[Key(fd, READ)]] else [])
               + (if events.write && Key(fd, WRITE) in regs then [regs[Key(fd, WRITE)]] else [])
  {
  }

  /** Removing all events is removing the registered ones. */
  lemma WithoutMask(regs: map<Key, Task>, fd: nat)
    ensures Without(regs, fd, Mask(regs, fd)) == Without(regs, fd, Bits(true, true))
    ensures TasksOf(regs, fd, Mask(regs, fd)) == TasksOf(regs, fd, Bits(true, true))
  {
  }
}
