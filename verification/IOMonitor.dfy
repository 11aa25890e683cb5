/** The hand-off between the I/O listener and the threads that change its set of descriptors
    (src/logid/backend/raw/IOMonitor.cpp).

    Two mutexes and one eventfd: the listener sleeps in epoll_wait holding `run`; a mutator that
    cannot take `run` at once writes to the eventfd and waits for it, holding `yield` all the while
    so that the listener cannot swallow the wake-up. */
module IOMonitor {
  import opened Common

  datatype Owner = Free | Listener | Caller(id: nat)

  datatype Op = Add(fd: int, handler: nat) | Remove(fd: int)

  /** Key of the eventfd in the descriptor map. */
  const EVENT_FD := -1
  /** Caller id of a call that an I/O handler makes on the listener thread itself. */
  const SELF: nat := 0

  /** Where _listen stands.  `batch` and `rest` are the events of the current epoll_wait result
      that are still to be handled. */
  datatype ListenerPc =
    | Starting
    | Polling
    | Dispatching(batch: seq<int>)
    | WantYield(rest: seq<int>)
    | HasYield(rest: seq<int>)
    | WantRun(rest: seq<int>, drained: bool)
    | Resuming(rest: seq<int>)
    | Handling(handler: nat, rest: seq<int>)

  /** Where a thread inside add or remove stands; the first five are inside _yield. */
  datatype CallerPc =
    | NeedYield(op: Op)
    | TryRun(op: Op)
    | Signalling(op: Op)
    | NeedRun(op: Op)
    | HasBoth(op: Op)
    | Mutating(op: Op)

  /** An add or remove that is over; `ok` unless it threw. */
  datatype Change = Change(op: Op, ok: bool)

  /** `changes` are the adds and removes so far. */
  datatype State = State(
    run: Owner,
    yielding: Owner,
    counter: nat,
    fds: map<int, nat>,
    listener: ListenerPc,
    callers: map<nat, CallerPc>,
    changes: seq<Change>)

  const INIT := State(Free, Free, 0, map[EVENT_FD := 0], Starting, map[], [])

  datatype Event =
    | ListenerStart
    | PollReturns(batch: seq<int>)
    | Dispatch
    | ListenerTakesYield
    | Drain
    | ListenerTakesRun
    | Resume
    | Handled
    | Call(c: nat, op: Op)
    | TakeYield(c: nat)
    | TryLock(c: nat, spurious: bool)
    | Signal(c: nat)
    | TakeRun(c: nat)
    | LeaveYield(c: nat)
    | Mutate(c: nat, epollOk: bool)

  predicate At(s: State, c: nat) {
    c in s.callers
  }

  /** One result of epoll_wait: some registered descriptors, each once, the eventfd among them
      exactly when its counter is positive (it is level triggered, and the result array has room
      for every registered descriptor). */
  predicate PollResult(s: State, batch: seq<int>) {
    && batch != []
    && |batch| <= |s.fds|
    && (forall i :: 0 <= i < |batch| ==> batch[i] in s.fds)
    && Distinct(batch)
    && (EVENT_FD in batch <==> s.counter > 0)
  }

  predicate Distinct(batch: seq<int>) {
    forall i, j :: 0 <= i < j < |batch| ==> batch[i] != batch[j]
  }

  predicate Enabled(s: State, e: Event) {
    match e
    case ListenerStart => s.listener.Starting? && s.run.Free?
    case PollReturns(batch) => s.listener.Polling? && PollResult(s, batch)
    case Dispatch => s.listener.Dispatching?
    case ListenerTakesYield => s.listener.WantYield? && s.yielding.Free?
    case Drain => s.listener.HasYield?
    case ListenerTakesRun => s.listener.WantRun? && s.run.Free?
    case Resume => s.listener.Resuming?
    case Handled => s.listener.Handling? && SELF !in s.callers
    case Call(c, op) => c !in s.callers && op.fd != EVENT_FD && (c == SELF ==> s.listener.Handling?)
    case TakeYield(c) => At(s, c) && s.callers[c].NeedYield? && s.yielding.Free?
    case TryLock(c, _) => At(s, c) && s.callers[c].TryRun?
    case Signal(c) => At(s, c) && s.callers[c].Signalling?
    case TakeRun(c) => At(s, c) && s.callers[c].NeedRun? && s.run.Free?
    case LeaveYield(c) => At(s, c) && s.callers[c].HasBoth?
    case Mutate(c, _) => At(s, c) && s.callers[c].Mutating?
  }

  /** The descriptor map after the body of add or remove; add throws on a duplicate and when
      epoll_ctl fails, leaving the map alone. */
  function FdsAfter(fds: map<int, nat>, op: Op, epollOk: bool): map<int, nat> {
    match op
    case Add(fd, handler) => if fd in fds || !epollOk then fds else fds[fd := handler]
    case Remove(fd) => fds - {fd}
  }

  /** Whether add or remove returns rather than throws. */
  predicate Returns(fds: map<int, nat>, op: Op, epollOk: bool) {
    op.Add? ==> epollOk && op.fd !in fds
  }

  function Apply(s: State, e: Event): State
    requires Enabled(s, e)
  {
    match e
    case ListenerStart => s.(run := Listener, listener := Polling)
    case PollReturns(batch) => s.(listener := Dispatching(batch))
    case Dispatch =>
      var batch := s.listener.batch;
      if batch == [] then s.(listener := Polling)
      else if batch[0] == EVENT_FD then s.(run := Free, listener := WantYield(batch[1..]))
      else if batch[0] in s.fds then s.(run := Free, listener := Handling(s.fds[batch[0]], batch[1..]))
      else s.(listener := Dispatching(batch[1..]))
    case ListenerTakesYield => s.(yielding := Listener, listener := HasYield(s.listener.rest))
    case Drain => s.(counter := 0, listener := WantRun(s.listener.rest, true))
    case ListenerTakesRun =>
      s.(run := Listener,
      listener := if s.listener.drained then Resuming(s.listener.rest) else Dispatching(s.listener.rest))
    case Resume => s.(yielding := Free, listener := Dispatching(s.listener.rest))
    case Handled => s.(listener := WantRun(s.listener.rest, false))
    case Call(c, op) => s.(callers := s.callers[c := NeedYield(op)])
    case TakeYield(c) => s.(yielding := Caller(c), callers := s.callers[c := TryRun(s.callers[c].op)])
    case TryLock(c, spurious) =>
      if s.run.Free? && !spurious
      then s.(run := Caller(c), callers := s.callers[c := HasBoth(s.callers[c].op)])
      else s.(callers := s.callers[c := Signalling(s.callers[c].op)])
    case Signal(c) => s.(counter := s.counter + 1, callers := s.callers[c := NeedRun(s.callers[c].op)])
    case TakeRun(c) => s.(run := Caller(c), callers := s.callers[c := HasBoth(s.callers[c].op)])
    case LeaveYield(c) => s.(yielding := Free, callers := s.callers[c := Mutating(s.callers[c].op)])
    case Mutate(c, epollOk) =>
      var op := s.callers[c].op;
      s.(run := Free, fds := FdsAfter(s.fds, op, epollOk), callers := s.callers - {c},
      changes := s.changes + [Change(op, Returns(s.fds, op, epollOk))])
  }

  /** The monitor's own fields: its two mutexes, the counter of its eventfd and its descriptor map.  Where
      each thread stands in its code is ghost.  Each method is one atomic section of the source. */
  class Monitor {
    var run: Owner
    var yielding: Owner
    var counter: nat
    var fds: map<int, nat>
    ghost var listener: ListenerPc
    ghost var callers: map<nat, CallerPc>
    ghost var changes: seq<Change>

    ghost function View(): State
      reads this
    {
      State(run, yielding, counter, fds, listener, callers, changes)
    }

    constructor ()
      ensures View() == INIT && Inv(View())
    {
      run, yielding, counter := Free, Free, 0;
      fds := map[EVENT_FD := 0];
      listener, callers, changes := Starting, map[], [];
    }

    /** lock.lock() in the listener, at its start, after a wake-up and after a handler. */
    method ListenerAcquiresRun()
      requires Inv(View()) && (Enabled(View(), ListenerStart) || Enabled(View(), ListenerTakesRun))
      modifies this
      ensures View() == Apply(old(View()), if old(listener).Starting? then ListenerStart else ListenerTakesRun)
      ensures Inv(View())
    {
      StepKeepsInv(View(), if listener.Starting? then ListenerStart else ListenerTakesRun);
      run := Listener;
      listener :=
        if listener.Starting? then Polling
        else if listener.drained then Resuming(listener.rest)
        else Dispatching(listener.rest);
    }

    ghost method PollWait(batch: seq<int>)
      requires Inv(View()) && Enabled(View(), PollReturns(batch))
      modifies this
      ensures View() == Apply(old(View()), PollReturns(batch)) && Inv(View())
    {
      StepKeepsInv(View(), PollReturns(batch));
      listener := Dispatching(batch);
    }

    /** One turn of the loop over the events epoll_wait returned; the handler to call, if any. */
    method DispatchOne(batch: seq<int>) returns (handler: Option<nat>)
      requires Inv(View()) && listener == Dispatching(batch)
      modifies this
      ensures View() == Apply(old(View()), Event.Dispatch) && Inv(View())
      ensures handler ==
              if batch != [] && batch[0] != EVENT_FD && batch[0] in fds then Some(fds[batch[0]]) else None
    {
      StepKeepsInv(View(), Event.Dispatch);
      if batch == [] {
        listener := Polling;
        return None;
      }
      if batch[0] == EVENT_FD {
        run := Free;
        listener := WantYield(batch[1..]);
        return None;
      }
      if batch[0] !in fds {
        listener := Dispatching(batch[1..]);
        return None;
      }
      handler := Some(fds[batch[0]]);
      run := Free;
      listener := Handling(handler.value, batch[1..]);
    }

    /** Waits for mutators to leave _yield, then reads the eventfd until it would block. */
    method WaitForYield()
      requires Inv(View()) && Enabled(View(), ListenerTakesYield)
      modifies this
      ensures Enabled(Apply(old(View()), ListenerTakesYield), Drain)
      ensures View() == Apply(Apply(old(View()), ListenerTakesYield), Drain) && Inv(View())
    {
      StepKeepsInv(View(), ListenerTakesYield);
      StepKeepsInv(Apply(View(), ListenerTakesYield), Drain);
      yielding := Listener;
      while counter != 0
        invariant View() == old(View()).(yielding := Listener, counter := counter)
        decreases counter
      {
        counter := 0;
      }
      listener := WantRun(listener.rest, true);
    }

    /** The yield lock goes out of scope. */
    method EndOfWakeup()
      requires Inv(View()) && Enabled(View(), Resume)
      modifies this
      ensures View() == Apply(old(View()), Resume) && Inv(View())
    {
      StepKeepsInv(View(), Resume);
      yielding := Free;
      listener := Dispatching(listener.rest);
    }

    ghost method EndOfHandler()
      requires Inv(View()) && Enabled(View(), Handled)
      modifies this
      ensures View() == Apply(old(View()), Handled) && Inv(View())
    {
      StepKeepsInv(View(), Handled);
      listener := WantRun(listener.rest, false);
    }

    ghost method Enter(c: nat, op: Op)
      requires Inv(View()) && Enabled(View(), Event.Call(c, op))
      modifies this
      ensures View() == Apply(old(View()), Event.Call(c, op)) && Inv(View())
    {
      StepKeepsInv(View(), Event.Call(c, op));
      callers := callers[c := NeedYield(op)];
    }

    /** _yield up to the point where the caller has the run lock or must wait for it. */
    method TryYield(c: nat, spurious: bool) returns (locked: bool)
      requires Inv(View()) && Enabled(View(), Event.TakeYield(c))
      modifies this
      ensures var s1 := Apply(old(View()), Event.TakeYield(c));
              Enabled(s1, TryLock(c, spurious)) &&
              var s2 := Apply(s1, TryLock(c, spurious));
              && (locked <==> s2.callers[c].HasBoth?)
              && (locked ==> View() == s2)
              && (!locked ==> Enabled(s2, Event.Signal(c)) && View() == Apply(s2, Event.Signal(c)))
      ensures Inv(View())
    {
      YieldKeepsInv(View(), c, spurious);
      ghost var op := callers[c].op;
      yielding := Caller(c);
      if run.Free? && !spurious {
        run := Caller(c);
        callers := callers[c := HasBoth(op)];
        return true;
      }
      counter := counter + 1;
      callers := callers[c := NeedRun(op)];
      return false;
    }

    method LockRun(c: nat)
      requires Inv(View()) && Enabled(View(), Event.TakeRun(c))
      modifies this
      ensures View() == Apply(old(View()), Event.TakeRun(c)) && Inv(View())
    {
      StepKeepsInv(View(), Event.TakeRun(c));
      run := Caller(c);
      callers := callers[c := HasBoth(callers[c].op)];
    }

    method EndOfYield(ghost c: nat)
      requires Inv(View()) && Enabled(View(), Event.LeaveYield(c))
      modifies this
      ensures View() == Apply(old(View()), Event.LeaveYield(c)) && Inv(View())
    {
      StepKeepsInv(View(), Event.LeaveYield(c));
      yielding := Free;
      callers := callers[c := Mutating(callers[c].op)];
    }

    /** The bodies of add and remove once they have the lock; `ok` is false when add throws. */
    method ChangeFds(ghost c: nat, op: Op, epollOk: bool) returns (ok: bool)
      requires Inv(View()) && At(View(), c) && callers[c] == Mutating(op)
      modifies this
      ensures View() == Apply(old(View()), Event.Mutate(c, epollOk)) && Inv(View())
      ensures ok <==> op.Remove? || (op.fd !in old(fds) && epollOk)
      ensures ok ==> (op.fd in fds <==> op.Add?)
      ensures ok && op.Add? ==> fds[op.fd] == op.handler
      ensures forall fd :: !ok || fd != op.fd ==>
                (fd in fds <==> fd in old(fds)) && (fd in fds ==> fds[fd] == old(fds)[fd])
    {
      StepKeepsInv(View(), Event.Mutate(c, epollOk));
      match op {
        case Add(fd, handler) =>
          ok := fd !in fds && epollOk;
          if ok {
            fds := fds[fd := handler];
          }
        case Remove(fd) =>
          fds := fds - {fd};
          ok := true;
      }
      callers := callers - {c};
      changes := changes + [Change(op, ok)];
      run := Free;
    }
  }

  ghost predicate Leads(s: State, steps: seq<Event>, s': State)
    decreases |steps|
  {
    if steps == [] then s == s'
    else Enabled(s, steps[0]) && Leads(Apply(s, steps[0]), steps[1..], s')
  }

  // ---------------------------------------------------------------------------------------------
  // Lock ownership
  // ---------------------------------------------------------------------------------------------

  predicate ListenerHoldsRun(pc: ListenerPc) {
    pc.Polling? || pc.Dispatching? || pc.Resuming?
  }

  predicate ListenerHoldsYield(pc: ListenerPc) {
    pc.HasYield? || pc.Resuming? || (pc.WantRun? && pc.drained)
  }

  predicate CallerHoldsRun(pc: CallerPc) {
    pc.HasBoth? || pc.Mutating?
  }

  predicate CallerHoldsYield(pc: CallerPc) {
    pc.TryRun? || pc.Signalling? || pc.NeedRun? || pc.HasBoth?
  }

  /** Caller `c` and the owner fields agree; a caller that signalled finds the counter positive. */
  predicate CallerOk(s: State, c: nat) {
    && (s.run == Caller(c) <==> At(s, c) && CallerHoldsRun(s.callers[c]))
    && (s.yielding == Caller(c) <==> At(s, c) && CallerHoldsYield(s.callers[c]))
    && (At(s, c) && s.callers[c].NeedRun? ==> s.counter > 0)
    && (At(s, c) ==> s.callers[c].op.fd != EVENT_FD)
    && (At(s, c) && c == SELF ==> s.listener.Handling?)
  }

  predicate ListenerOk(s: State) {
    && (s.run.Listener? <==> ListenerHoldsRun(s.listener))
    && (s.yielding.Listener? <==> ListenerHoldsYield(s.listener))
    && EVENT_FD in s.fds
  }

  ghost predicate Inv(s: State) {
    ListenerOk(s) && forall c: nat :: CallerOk(s, c)
  }

  predicate ByCaller(e: Event) {
    e.Call? || e.TakeYield? || e.TryLock? || e.Signal? || e.TakeRun? || e.LeaveYield? || e.Mutate?
  }

  lemma StepKeepsListener(s: State, e: Event)
    requires ListenerOk(s) && Enabled(s, e)
    requires ByCaller(e) ==> CallerOk(s, e.c)
    ensures ListenerOk(Apply(s, e))
  {
  }

  lemma StepKeepsCaller(s: State, e: Event, c: nat)
    requires ListenerOk(s) && Enabled(s, e) && CallerOk(s, c)
    requires ByCaller(e) ==> CallerOk(s, e.c)
    ensures CallerOk(Apply(s, e), c)
  {
  }

  lemma StepKeepsInv(s: State, e: Event)
    requires Inv(s) && Enabled(s, e)
    ensures Inv(Apply(s, e))
  {
    StepKeepsListener(s, e);
    forall c: nat
      ensures CallerOk(Apply(s, e), c)
    {
      StepKeepsCaller(s, e, c);
    }
  }

  /** The three steps of _yield before it may have to wait. */
  lemma YieldKeepsInv(s: State, c: nat, spurious: bool)
    requires Inv(s) && Enabled(s, TakeYield(c))
    ensures var s2 := Apply(Apply(s, TakeYield(c)), TryLock(c, spurious));
            Inv(if s2.callers[c].HasBoth? then s2 else Apply(s2, Signal(c)))
  {
    var s1 := Apply(s, TakeYield(c));
    StepKeepsInv(s, TakeYield(c));
    StepKeepsInv(s1, TryLock(c, spurious));
    var s2 := Apply(s1, TryLock(c, spurious));
    if !s2.callers[c].HasBoth? {
      StepKeepsInv(s2, Signal(c));
    }
  }

  lemma {:induction false} RunKeepsInv(s: State, steps: seq<Event>, s': State)
    requires Inv(s) && Leads(s, steps, s')
    ensures Inv(s')
    decreases |steps|
  {
    if steps == [] {
    } else {
      StepKeepsInv(s, steps[0]);
      RunKeepsInv(Apply(s, steps[0]), steps[1..], s');
    }
  }

  lemma EventFdCounts(fds: map<int, nat>)
    requires EVENT_FD in fds
    ensures |fds| > 0
  {
    SubsetSize({EVENT_FD}, fds.Keys);
  }

  /** In every run of the monitor, a caller that has signalled
      and waits for the run lock finds the counter positive, so if the listener is in epoll_wait
      at that moment it does not sleep, and whatever the call returns includes the eventfd. */
  lemma {:induction false} SignalIsNeverLost(steps: seq<Event>, s: State, c: nat)
    requires Leads(INIT, steps, s)
    requires At(s, c) && s.callers[c].NeedRun?
    ensures s.counter > 0
    ensures s.yielding == Caller(c)
    ensures !s.listener.HasYield? && !(s.listener.WantRun? && s.listener.drained)
    ensures s.listener.Polling? ==> s.run == Listener && Enabled(s, PollReturns([EVENT_FD]))
    ensures forall batch :: Enabled(s, PollReturns(batch)) ==> EVENT_FD in batch
  {
    assert forall d: nat :: CallerOk(INIT, d);
    RunKeepsInv(INIT, steps, s);
    assert CallerOk(s, c);
    EventFdCounts(s.fds);
  }

  lemma {:induction false} MutualExclusion(steps: seq<Event>, s: State, c: nat, d: nat)
    requires Leads(INIT, steps, s) && At(s, c) && At(s, d)
    ensures CallerHoldsRun(s.callers[c]) && CallerHoldsRun(s.callers[d]) ==> c == d
    ensures CallerHoldsYield(s.callers[c]) && CallerHoldsYield(s.callers[d]) ==> c == d
    ensures CallerHoldsRun(s.callers[c]) ==> !ListenerHoldsRun(s.listener)
    ensures CallerHoldsYield(s.callers[c]) ==> !ListenerHoldsYield(s.listener)
  {
    assert forall e: nat :: CallerOk(INIT, e);
    RunKeepsInv(INIT, steps, s);
    assert CallerOk(s, c) && CallerOk(s, d);
  }

  // ---------------------------------------------------------------------------------------------
  // Wake-ups
  // ---------------------------------------------------------------------------------------------

  /** Events still to be handled: the eventfd is among them only while its counter is positive. */
  predicate RestOk(batch: seq<int>, mayWake: bool) {
    Distinct(batch) && (EVENT_FD in batch ==> mayWake)
  }

  /** The listener goes for the yield lock only with the counter positive. */
  predicate WakeOk(s: State) {
    match s.listener
    case Starting => true
    case Polling => true
    case Dispatching(batch) => RestOk(batch, s.counter > 0)
    case WantYield(rest) => s.counter > 0 && RestOk(rest, false)
    case HasYield(rest) => s.counter > 0 && RestOk(rest, false)
    case WantRun(rest, drained) => RestOk(rest, !drained && s.counter > 0)
    case Resuming(rest) => RestOk(rest, false)
    case Handling(_, rest) => RestOk(rest, s.counter > 0)
  }

  function Signals(steps: seq<Event>): nat {
    if steps == [] then 0 else (if steps[0].Signal? then 1 else 0) + Signals(steps[1..])
  }

  function Drains(steps: seq<Event>): nat {
    if steps == [] then 0 else (if steps[0].Drain? then 1 else 0) + Drains(steps[1..])
  }

  function Unread(s: State): nat {
    if s.counter > 0 then 1 else 0
  }

  lemma RestTail(batch: seq<int>)
    requires Distinct(batch) && batch != []
    ensures Distinct(batch[1..]) && (batch[0] == EVENT_FD ==> EVENT_FD !in batch[1..])
    ensures EVENT_FD in batch[1..] ==> EVENT_FD in batch
  {
  }

  lemma StepWakes(s: State, e: Event)
    requires WakeOk(s) && Enabled(s, e)
    ensures WakeOk(Apply(s, e))
    ensures (if e.Drain? then 1 else 0) + Unread(Apply(s, e)) <= Unread(s) + if e.Signal? then 1 else 0
  {
    if e.Dispatch? && s.listener.batch != [] {
      RestTail(s.listener.batch);
    }
  }

  /** The listener is woken at most once for each signal: without new signals it goes back to sleep, and
      what is left in the counter is a signal it has not read. */
  lemma {:induction false} WakesAreSignalled(s: State, steps: seq<Event>, s': State)
    requires WakeOk(s) && Leads(s, steps, s')
    ensures WakeOk(s') && Drains(steps) + Unread(s') <= Unread(s) + Signals(steps)
    decreases |steps|
  {
    if steps == [] {
    } else {
      StepWakes(s, steps[0]);
      WakesAreSignalled(Apply(s, steps[0]), steps[1..], s');
    }
  }

  /** The events of the current epoll_wait result that are still to be handled. */
  function Rest(pc: ListenerPc): seq<int> {
    match pc
    case Starting => []
    case Polling => []
    case Dispatching(batch) => batch
    case WantYield(rest) => rest
    case HasYield(rest) => rest
    case WantRun(rest, _) => rest
    case Resuming(rest) => rest
    case Handling(_, rest) => rest
  }

  /** All events that epoll_wait returned in these steps. */
  function Polled(steps: seq<Event>): seq<int> {
    if steps == [] then []
    else (if steps[0].PollReturns? then steps[0].batch else []) + Polled(steps[1..])
  }

  /** The events that the listener handled in these steps. */
  function HandledEvents(s: State, steps: seq<Event>): seq<int>
    decreases |steps|
  {
    if steps == [] || !Enabled(s, steps[0]) then []
    else
      var now := if steps[0].Dispatch? && s.listener.batch != [] then [s.listener.batch[0]] else [];
      now + HandledEvents(Apply(s, steps[0]), steps[1..])
  }

  lemma StepKeepsRest(s: State, e: Event)
    requires Enabled(s, e)
    ensures var now := if e.Dispatch? && s.listener.batch != [] then [s.listener.batch[0]] else [];
            Rest(s.listener) + (if e.PollReturns? then e.batch else []) == now + Rest(Apply(s, e).listener)
  {
  }

  /** Every event that epoll_wait returns is handled once and in order, whatever wake-ups and changes of
      the descriptors come between: none is dropped and none handled twice. */
  lemma {:induction false} EventsAreHandled(s: State, steps: seq<Event>, s': State)
    requires Leads(s, steps, s')
    ensures Rest(s.listener) + Polled(steps) == HandledEvents(s, steps) + Rest(s'.listener)
    decreases |steps|
  {
    if steps == [] {
    } else {
      var e, t := steps[0], Apply(s, steps[0]);
      EventsAreHandled(t, steps[1..], s');
      StepKeepsRest(s, e);
      var now := if e.Dispatch? && s.listener.batch != [] then [s.listener.batch[0]] else [];
      var more := if e.PollReturns? then e.batch else [];
      assert Rest(s.listener) + (more + Polled(steps[1..])) == (Rest(s.listener) + more) + Polled(steps[1..]);
      assert now + (HandledEvents(t, steps[1..]) + Rest(s'.listener)) ==
             (now + HandledEvents(t, steps[1..])) + Rest(s'.listener);
      assert (now + Rest(t.listener)) + Polled(steps[1..]) == now + (Rest(t.listener) + Polled(steps[1..]));
    }
  }

  // ---------------------------------------------------------------------------------------------
  // The descriptors
  // ---------------------------------------------------------------------------------------------

  /** The last change of this descriptor that did not throw added it with this handler. */
  ghost predicate LastAdded(changes: seq<Change>, fd: int, handler: nat) {
    exists i :: 0 <= i < |changes| && LastOf(changes, fd, i) && changes[i].op == Add(fd, handler)
  }

  predicate LastOf(changes: seq<Change>, fd: int, i: nat)
    requires i < |changes|
  {
    && changes[i].ok && changes[i].op.fd == fd
    && forall j :: i < j < |changes| && changes[j].ok ==> changes[j].op.fd != fd
  }

  predicate Registered(s: State, fd: int, handler: nat) {
    fd in s.fds && s.fds[fd] == handler
  }

  lemma LastAddedNext(changes: seq<Change>, next: Change, fd: int, handler: nat)
    ensures LastAdded(changes + [next], fd, handler) <==>
            if next.ok && next.op.fd == fd then next.op == Add(fd, handler) else LastAdded(changes, fd, handler)
  {
    var all := changes + [next];
    assert all[|changes|] == next && forall i :: 0 <= i < |changes| ==> all[i] == changes[i];
    forall i: nat | i < |changes|
      ensures LastOf(all, fd, i) <==> LastOf(changes, fd, i) && !(next.ok && next.op.fd == fd)
    {
    }
    assert LastOf(all, fd, |changes|) <==> next.ok && next.op.fd == fd;
    if LastAdded(changes, fd, handler) && !(next.ok && next.op.fd == fd) {
      var i :| 0 <= i < |changes| && LastOf(changes, fd, i) && changes[i].op == Add(fd, handler);
      assert LastOf(all, fd, i) && all[i].op == Add(fd, handler);
    }
    if next.ok && next.op == Add(fd, handler) {
      assert LastOf(all, fd, |changes|);
    }
  }

  ghost predicate FdsAreLastAdded(s: State) {
    forall fd, handler :: fd != EVENT_FD ==> (Registered(s, fd, handler) <==> LastAdded(s.changes, fd, handler))
  }

  lemma StepKeepsFds(s: State, e: Event)
    requires Inv(s) && FdsAreLastAdded(s) && Enabled(s, e)
    ensures FdsAreLastAdded(Apply(s, e))
  {
    var s' := Apply(s, e);
    if e.Mutate? {
      assert CallerOk(s, e.c);
      var op := s.callers[e.c].op;
      forall fd, handler | fd != EVENT_FD
        ensures Registered(s', fd, handler) <==> LastAdded(s'.changes, fd, handler)
      {
        LastAddedNext(s.changes, Change(op, Returns(s.fds, op, e.epollOk)), fd, handler);
        assert Registered(s, fd, handler) <==> LastAdded(s.changes, fd, handler);
      }
    } else {
      assert s'.fds == s.fds && s'.changes == s.changes;
      forall fd, handler | fd != EVENT_FD
        ensures Registered(s', fd, handler) <==> LastAdded(s'.changes, fd, handler)
      {
        assert Registered(s, fd, handler) <==> LastAdded(s.changes, fd, handler);
      }
    }
  }

  lemma {:induction false} RunKeepsFds(s: State, steps: seq<Event>, s': State)
    requires Inv(s) && FdsAreLastAdded(s) && Leads(s, steps, s')
    ensures Inv(s') && FdsAreLastAdded(s')
    decreases |steps|
  {
    if steps == [] {
    } else {
      StepKeepsInv(s, steps[0]);
      StepKeepsFds(s, steps[0]);
      RunKeepsFds(Apply(s, steps[0]), steps[1..], s');
    }
  }

  /** After any run a descriptor is registered with a handler if and only if the last add or remove of
      it that did not throw was an add with that handler; and an event on it calls that handler, or
      none when it is not registered. */
  lemma {:induction false} RegisteredIsLastAdded(steps: seq<Event>, s: State, fd: int)
    requires Leads(INIT, steps, s) && fd != EVENT_FD
    ensures forall handler :: Registered(s, fd, handler) <==> LastAdded(s.changes, fd, handler)
    ensures Enabled(s, Dispatch) && s.listener.batch != [] && s.listener.batch[0] == fd ==>
              var next, rest := Apply(s, Dispatch).listener, s.listener.batch[1..];
              && (forall handler :: next == Handling(handler, rest) <==> LastAdded(s.changes, fd, handler))
              && ((forall handler :: !LastAdded(s.changes, fd, handler)) ==> next == Dispatching(rest))
  {
    assert forall c: nat :: CallerOk(INIT, c);
    RunKeepsFds(INIT, steps, s);
    assert forall handler :: Registered(s, fd, handler) <==> LastAdded(s.changes, fd, handler);
    assert fd in s.fds <==> exists handler :: Registered(s, fd, handler) by {
      if fd in s.fds {
        assert Registered(s, fd, s.fds[fd]);
      }
    }
  }

  /** A change is carried out once, when its caller has the lock: with the arguments of the call, and
      throwing only if it is an add of a registered descriptor or one that epoll refuses. */
  lemma {:induction false} ChangeIsAsCalled(s: State, call: Event, steps: seq<Event>, s1: State, epollOk: bool)
    requires call.Call? && Enabled(s, call) && Leads(Apply(s, call), steps, s1)
    requires Inv(s) && (forall ok :: Mutate(call.c, ok) !in steps)
    requires Enabled(s1, Mutate(call.c, epollOk))
    ensures s1.run == Caller(call.c)
    ensures Apply(s1, Mutate(call.c, epollOk)).changes ==
            s1.changes + [Change(call.op, call.op.Remove? || (epollOk && call.op.fd !in s1.fds))]
  {
    StepKeepsInv(s, call);
    OpIsKept(Apply(s, call), steps, s1, call.c);
    assert CallerOk(s1, call.c);
  }

  lemma {:induction false} OpIsKept(s: State, steps: seq<Event>, s': State, c: nat)
    requires Inv(s) && At(s, c) && Leads(s, steps, s') && (forall ok :: Mutate(c, ok) !in steps)
    ensures Inv(s') && At(s', c) && s'.callers[c].op == s.callers[c].op
    decreases |steps|
  {
    if steps == [] {
    } else {
      StepKeepsInv(s, steps[0]);
      var s1 := Apply(s, steps[0]);
      assert steps[0] in steps;
      assert steps[0].Mutate? ==> steps[0] == Mutate(steps[0].c, steps[0].epollOk);
      assert At(s1, c) && s1.callers[c].op == s.callers[c].op;
      OpIsKept(s1, steps[1..], s', c);
    }
  }

  // ---------------------------------------------------------------------------------------------
  // Deadlock freedom and bounded waiting
  // ---------------------------------------------------------------------------------------------

  /** A step the daemon takes by itself: not a new call, and not a wake-up by outside input. */
  predicate Internal(s: State, e: Event) {
    !e.Call? && (e.PollReturns? ==> s.counter > 0)
  }

  /** The step a mutator takes next; those waiting for a mutex need it free. */
  function CallerStep(s: State, c: nat): Event
    requires At(s, c)
  {
    match s.callers[c]
    case NeedYield(_) => TakeYield(c)
    case TryRun(_) => TryLock(c, false)
    case Signalling(_) => Signal(c)
    case NeedRun(_) => TakeRun(c)
    case HasBoth(_) => LeaveYield(c)
    case Mutating(_) => Mutate(c, true)
  }

  /** A step that is possible while some call is in progress. */
  function NextStep(s: State, c: nat): Event
    requires At(s, c)
  {
    match s.run
    case Caller(holder) => if At(s, holder) then CallerStep(s, holder) else Drain
    case Listener =>
      if s.listener.Dispatching? then Dispatch
      else if s.listener.Resuming? then Resume
      else if s.counter > 0 then PollReturns([EVENT_FD])
      else if s.yielding.Caller? && At(s, s.yielding.id) then CallerStep(s, s.yielding.id)
      else TakeYield(c)
    case Free =>
      if s.listener.Starting? then ListenerStart
      else if s.listener.WantRun? then ListenerTakesRun
      else if s.listener.HasYield? then Drain
      else if s.yielding.Caller? && At(s, s.yielding.id) then CallerStep(s, s.yielding.id)
      else TakeYield(c)
  }

  /** No deadlock: in every reachable state in which any add or remove is in progress, some thread
      can move without new calls and without outside input. */
  lemma {:induction false} NoDeadlock(steps: seq<Event>, s: State, c: nat)
    requires Leads(INIT, steps, s) && At(s, c)
    ensures Enabled(s, NextStep(s, c)) && Internal(s, NextStep(s, c))
  {
    assert forall d: nat :: CallerOk(INIT, d);
    RunKeepsInv(INIT, steps, s);
    assert CallerOk(s, c);
    if s.run.Caller? {
      assert CallerOk(s, s.run.id);
    }
    if s.yielding.Caller? {
      assert CallerOk(s, s.yielding.id);
    }
    EventFdCounts(s.fds);
  }

  /** Most results the next epoll_wait can return, counting an add that is about to happen. */
  function MostEvents(s: State): nat {
    |s.fds| + if s.run.Caller? then 1 else 0
  }

  /** Listener steps left before it must stop at the yield mutex, if that mutex stays taken and
      the counter stays positive: three per event ahead of the eventfd. */
  function ListenerSteps(s: State): nat {
    var poll := 1 + 3 * MostEvents(s);
    var finish := (batch: seq<int>) => if EVENT_FD in batch then 3 * |batch| else 3 * |batch| + 1 + poll;
    match s.listener
    case Starting => 1 + poll
    case Polling => poll
    case Dispatching(batch) => finish(batch)
    case Handling(_, rest) => 2 + finish(rest)
    case WantRun(rest, _) => 1 + finish(rest)
    case _ => 0
  }

  function Rank(s: State): nat {
    ListenerSteps(s) + if s.run.Caller? then 1 else 0
  }

  predicate Waits(s: State, c: nat) {
    At(s, c) && s.callers[c].NeedRun?
  }

  lemma FdsGrowth(fds: map<int, nat>, op: Op, epollOk: bool)
    ensures |FdsAfter(fds, op, epollOk)| <= |fds| + 1
  {
    match op
    case Add(_, _) =>
    case Remove(fd) =>
      assert (fds - {fd}).Keys <= fds.Keys;
      SubsetSize((fds - {fd}).Keys, fds.Keys);
  }

  lemma ListenerStepShrinks(s: State, e: Event, c: nat)
    requires Inv(s) && Waits(s, c) && Enabled(s, e) && !ByCaller(e)
    ensures Waits(Apply(s, e), c) && Rank(Apply(s, e)) < Rank(s)
  {
    assert CallerOk(s, c);
    if e.Dispatch? && s.listener.batch != [] {
      var batch := s.listener.batch;
      assert batch == [batch[0]] + batch[1..];
    }
  }

  /** While a caller waits, every step anyone takes, other than entering add or remove, brings it
      strictly closer; nobody else can get ahead of it. */
  lemma WaitShrinks(s: State, e: Event, c: nat)
    requires Inv(s) && Waits(s, c) && Enabled(s, e) && e != TakeRun(c)
    ensures Waits(Apply(s, e), c)
    ensures e.Call? ==> Rank(Apply(s, e)) == Rank(s)
    ensures !e.Call? ==> Rank(Apply(s, e)) < Rank(s)
  {
    if !ByCaller(e) {
      ListenerStepShrinks(s, e, c);
    } else {
      assert CallerOk(s, c) && CallerOk(s, e.c);
      assert e.Call? || e.Mutate?;
      if e.Mutate? {
        FdsGrowth(s.fds, s.callers[e.c].op, e.epollOk);
      }
    }
  }

  function StepsTaken(steps: seq<Event>): nat {
    if steps == [] then 0
    else (if steps[0].Call? then 0 else 1) + StepsTaken(steps[1..])
  }

  /** Bounded waiting: once a caller has signalled, everybody else together takes at most `Rank`
      steps before it has the run lock. */
  lemma {:induction false} WaitIsBounded(s: State, steps: seq<Event>, s': State, c: nat)
    requires Inv(s) && Waits(s, c) && Leads(s, steps, s') && TakeRun(c) !in steps
    ensures Waits(s', c) && StepsTaken(steps) + Rank(s') <= Rank(s)
    decreases |steps|
  {
    if steps == [] {
    } else {
      assert steps[0] in steps;
      WaitShrinks(s, steps[0], c);
      StepKeepsInv(s, steps[0]);
      WaitIsBounded(Apply(s, steps[0]), steps[1..], s', c);
    }
  }

  /** ... and when the others can take no further internal step, the lock is free for it. */
  lemma WaiterIsNext(s: State, c: nat)
    requires Inv(s) && Waits(s, c)
    requires forall e :: Enabled(s, e) && Internal(s, e) ==> e == TakeRun(c)
    ensures Enabled(s, TakeRun(c))
    ensures s.run.Free?
  {
    assert CallerOk(s, c);
    if s.run.Caller? {
      assert CallerOk(s, s.run.id);
      assert Enabled(s, CallerStep(s, s.run.id)) && Internal(s, CallerStep(s, s.run.id));
    } else if s.run.Listener? {
      EventFdCounts(s.fds);
      var e := if s.listener.Dispatching? then Dispatch else PollReturns([EVENT_FD]);
      assert Enabled(s, e) && Internal(s, e);
    }
  }
}
