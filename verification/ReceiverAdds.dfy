/** How a receiver's devices are added, retried and waited for
    (src/logid/backend/hidpp10/ReceiverMonitor.cpp).

    A chain is one call of _addHandler with the retries it schedules.  Chains that come from a timeout
    check keep their device index in `pending` so that a second one is not begun. */
module ReceiverAdds {
  import opened Common

  const MAX_TRIES := 5
  const READY_BACKOFF := 250

  /** Queued: not yet past the check for a pending add.  Adding: inside addDevice.  Backoff: the next try
      is scheduled.  Registering: given up, about to wait for input from the device. */
  datatype Phase = Queued | Adding | Backoff | Registering

  /** `waited` is the total backoff scheduled so far, in milliseconds. */
  datatype Chain = Chain(index: int, timeoutCheck: bool, tries: nat, waited: nat, phase: Phase)

  datatype State = State(chains: map<nat, Chain>, pending: set<int>, waiters: set<int>)

  const INIT := State(map[], {}, {})

  datatype Event =
    | Start(id: nat, index: int, timeoutCheck: bool)
    | Enter(id: nat)
    | Added(id: nat)
    | NotReady(id: nat)
    | Failed(id: nat)
    | Retry(id: nat)
    | Register(id: nat)

  predicate In(s: State, id: nat, phase: Phase) {
    id in s.chains && s.chains[id].phase == phase
  }

  predicate Enabled(s: State, e: Event) {
    match e
    case Start(id, _, _) => id !in s.chains
    case Enter(id) => In(s, id, Queued)
    case Added(id) => In(s, id, Adding)
    case NotReady(id) => In(s, id, Adding)
    case Failed(id) => In(s, id, Adding)
    case Retry(id) => In(s, id, Backoff)
    case Register(id) => In(s, id, Registering)
  }

  function Pow2(n: nat): nat {
    if n == 0 then 1 else 2 * Pow2(n - 1)
  }

  function Apply(s: State, e: Event): State
    requires Enabled(s, e)
  {
    match e
    case Start(id, index, timeoutCheck) =>
      s.(chains := s.chains[id := Chain(index, timeoutCheck, 0, 0, Queued)])
    case Enter(id) =>
      var c := s.chains[id];
      if c.timeoutCheck && c.index in s.pending then s.(chains := s.chains - {id})
      else
        s.(chains := s.chains[id := c.(phase := Adding)],
           pending := if c.timeoutCheck then s.pending + {c.index} else s.pending)
    case Added(id) =>
      var index := s.chains[id].index;
      State(s.chains - {id}, s.pending - {index}, s.waiters - {index})
    case NotReady(id) =>
      var c := s.chains[id];
      if c.tries == MAX_TRIES then
        if c.timeoutCheck
        then s.(chains := s.chains[id := c.(phase := Registering)], pending := s.pending - {c.index})
        else s.(chains := s.chains - {id})
      else
        s.(chains := s.chains[id := c.(phase := Backoff, waited := c.waited + Pow2(c.tries) * READY_BACKOFF)])
    case Failed(id) => State(s.chains - {id}, s.pending - {s.chains[id].index}, s.waiters)
    case Retry(id) =>
      var c := s.chains[id];
      s.(chains := s.chains[id := c.(phase := Adding, tries := c.tries + 1)])
    case Register(id) => State(s.chains - {id}, s.pending, s.waiters + {s.chains[id].index})
  }

  /** The monitor's sets; the chains under way are ghosts, a chain being known to the code by the event and
      the number of tries it passes on.  Each method is one stretch of code under `_wait_mutex`, or the
      scheduling that follows it. */
  class ReceiverMonitor {
    var pending: set<int>
    var waiters: set<int>
    ghost var chains: map<nat, Chain>

    ghost function View(): State
      reads this
    {
      State(chains, pending, waiters)
    }

    /** A chain stands in this phase, with this event and this many tries. */
    ghost predicate At(id: nat, index: int, timeoutCheck: bool, tries: nat, phase: Phase)
      reads this
    {
      In(View(), id, phase) && chains[id] == Chain(index, timeoutCheck, tries, chains[id].waited, phase)
    }

    constructor ()
      ensures View() == INIT && Inv(View())
    {
      chains, pending, waiters := map[], {}, {};
    }

    ghost method BeginHandler(id: nat, index: int, timeoutCheck: bool)
      requires Inv(View()) && id !in chains
      modifies this
      ensures View() == Apply(old(View()), Start(id, index, timeoutCheck)) && Inv(View())
      ensures At(id, index, timeoutCheck, 0, Queued)
    {
      StepKeepsInv(View(), Start(id, index, timeoutCheck));
      chains := chains[id := Chain(index, timeoutCheck, 0, 0, Queued)];
    }

    /** The guard at the head of _addHandler; it is passed at most once by a chain. */
    method CheckPending(ghost id: nat, index: int, timeoutCheck: bool) returns (proceed: bool)
      requires Inv(View()) && At(id, index, timeoutCheck, 0, Queued)
      modifies this
      ensures View() == Apply(old(View()), Enter(id)) && Inv(View())
      ensures proceed <==> !(timeoutCheck && index in old(pending))
      ensures proceed ==> At(id, index, timeoutCheck, 0, Adding)
    {
      StepKeepsInv(View(), Enter(id));
      if timeoutCheck {
        if index in pending {
          chains := chains - {id};
          return false;
        }
        pending := pending + {index};
      }
      chains := chains[id := chains[id].(phase := Adding)];
      return true;
    }

    method DeviceAdded(ghost id: nat, index: int, ghost timeoutCheck: bool, ghost tries: nat)
      requires Inv(View()) && At(id, index, timeoutCheck, tries, Adding)
      modifies this
      ensures View() == Apply(old(View()), Added(id)) && Inv(View())
      ensures index !in pending && index !in waiters
    {
      StepKeepsInv(View(), Added(id));
      waiters := waiters - {index};
      pending := pending - {index};
      chains := chains - {id};
    }

    /** The handler of DeviceNotReady; the delay of the next try, or None after the last one. */
    method DeviceNotReady(ghost id: nat, index: int, timeoutCheck: bool, tries: nat) returns (wait: Option<nat>)
      requires Inv(View()) && At(id, index, timeoutCheck, tries, Adding)
      modifies this
      ensures View() == Apply(old(View()), NotReady(id)) && Inv(View())
      ensures wait == if tries == MAX_TRIES then None else Some(Pow2(tries) * READY_BACKOFF)
    {
      StepKeepsInv(View(), NotReady(id));
      if tries == MAX_TRIES {
        if timeoutCheck {
          pending := pending - {index};
          chains := chains[id := chains[id].(phase := Registering)];
        } else {
          chains := chains - {id};
        }
        return None;
      }
      wait := Some(Pow2(tries) * READY_BACKOFF);
      chains := chains[id := chains[id].(phase := Backoff, waited := chains[id].waited + wait.value)];
    }

    method DeviceFailed(ghost id: nat, index: int, ghost timeoutCheck: bool, ghost tries: nat)
      requires Inv(View()) && At(id, index, timeoutCheck, tries, Adding)
      modifies this
      ensures View() == Apply(old(View()), Failed(id)) && Inv(View())
      ensures index !in pending
    {
      StepKeepsInv(View(), Failed(id));
      pending := pending - {index};
      chains := chains - {id};
    }

    /** What the scheduled task passes to _addHandler. */
    method TryAgain(ghost id: nat, ghost index: int, ghost timeoutCheck: bool, tries: nat) returns (next: nat)
      requires Inv(View()) && At(id, index, timeoutCheck, tries, Backoff)
      modifies this
      ensures View() == Apply(old(View()), Retry(id)) && Inv(View())
      ensures next == tries + 1 && next <= MAX_TRIES && At(id, index, timeoutCheck, next, Adding)
    {
      StepKeepsInv(View(), Retry(id));
      next := tries + 1;
      chains := chains[id := chains[id].(phase := Adding, tries := next)];
    }

    method WaitForDevice(ghost id: nat, index: int)
      requires Inv(View()) && At(id, index, true, MAX_TRIES, Registering)
      modifies this
      ensures View() == Apply(old(View()), Register(id)) && Inv(View())
      ensures index in waiters
    {
      StepKeepsInv(View(), Register(id));
      if index !in waiters {
        waiters := waiters + {index};
      }
      chains := chains - {id};
    }
  }

  // ---------------------------------------------------------------------------------------------
  // What every step keeps
  // ---------------------------------------------------------------------------------------------

  /** A timeout check past its guard that has neither ended nor given up. */
  predicate Active(s: State, id: nat) {
    id in s.chains && s.chains[id].timeoutCheck && (s.chains[id].phase.Adding? || s.chains[id].phase.Backoff?)
  }

  ghost predicate PendingInv(s: State) {
    forall i :: i in s.pending ==> exists id :: Active(s, id) && s.chains[id].index == i
  }

  /** Tries and total backoff of one chain. */
  predicate Paced(c: Chain) {
    && c.tries <= MAX_TRIES
    && (c.phase.Queued? ==> c.tries == 0)
    && (c.phase.Backoff? ==> c.tries < MAX_TRIES)
    && (c.phase.Registering? ==> c.timeoutCheck && c.tries == MAX_TRIES)
    && c.waited == (Pow2(if c.phase.Backoff? then c.tries + 1 else c.tries) - 1) * READY_BACKOFF
  }

  ghost predicate Inv(s: State) {
    PendingInv(s) && forall id :: id in s.chains ==> Paced(s.chains[id])
  }

  predicate ChangesOnly(s: State, t: State, id: nat) {
    (forall o :: o in s.chains && o != id ==> o in t.chains && t.chains[o] == s.chains[o]) &&
    (forall o :: o in t.chains && o != id ==> o in s.chains)
  }

  lemma StepChangesOne(s: State, e: Event)
    requires Enabled(s, e)
    ensures ChangesOnly(s, Apply(s, e), e.id)
    ensures e.id in s.chains && e.id in Apply(s, e).chains ==>
              && Apply(s, e).chains[e.id].index == s.chains[e.id].index
              && Apply(s, e).chains[e.id].timeoutCheck == s.chains[e.id].timeoutCheck
  {
  }

  /** After a step either its own chain is still active or nobody's claim on its index is left. */
  lemma StepKeepsPending(s: State, e: Event)
    requires PendingInv(s) && Enabled(s, e)
    ensures PendingInv(Apply(s, e))
  {
    var t := Apply(s, e);
    StepChangesOne(s, e);
    forall i | i in t.pending
      ensures exists id :: Active(t, id) && t.chains[id].index == i
    {
      if i in s.pending {
        var id :| Active(s, id) && s.chains[id].index == i;
        if id == e.id {
          assert Active(t, e.id);
        } else {
          assert Active(t, id);
        }
      } else {
        assert Active(t, e.id);
      }
    }
  }

  lemma StepKeepsPace(s: State, e: Event)
    requires Enabled(s, e) && forall id :: id in s.chains ==> Paced(s.chains[id])
    ensures forall id :: id in Apply(s, e).chains ==> Paced(Apply(s, e).chains[id])
  {
    var t := Apply(s, e);
    StepChangesOne(s, e);
    if e.id in t.chains {
      PowersAdd(t.chains[e.id].tries);
    }
  }

  lemma PowersAdd(n: nat)
    ensures (Pow2(n) - 1) * READY_BACKOFF + Pow2(n) * READY_BACKOFF == (Pow2(n + 1) - 1) * READY_BACKOFF
  {
  }

  lemma StepKeepsInv(s: State, e: Event)
    requires Inv(s) && Enabled(s, e)
    ensures Inv(Apply(s, e))
  {
    StepKeepsPending(s, e);
    StepKeepsPace(s, e);
  }

  ghost predicate Leads(s: State, run: seq<Event>, s': State)
    decreases |run|
  {
    if run == [] then s == s'
    else Enabled(s, run[0]) && Leads(Apply(s, run[0]), run[1..], s')
  }

  lemma {:induction false} RunKeepsInv(s: State, run: seq<Event>, s': State)
    requires Inv(s) && Leads(s, run, s')
    ensures Inv(s')
    decreases |run|
  {
    if run == [] {
    } else {
      StepKeepsInv(s, run[0]);
      RunKeepsInv(Apply(s, run[0]), run[1..], s');
    }
  }

  lemma {:induction false} PowGrows(m: nat, n: nat)
    requires m <= n
    ensures 1 <= Pow2(m) <= Pow2(n)
    decreases n
  {
    if m < n {
      PowGrows(m, n - 1);
    } else if n > 0 {
      PowGrows(m - 1, n - 1);
    }
  }

  /** In any run no pending index is stuck: a timeout check for it is being tried or scheduled.  And no
      chain makes more than six tries or backs off for more than 7750 ms in all. */
  lemma {:induction false} PendingIsServed(run: seq<Event>, s: State)
    requires Leads(INIT, run, s)
    ensures forall i :: i in s.pending ==> exists id :: Active(s, id) && s.chains[id].index == i
    ensures forall id :: id in s.chains ==>
              s.chains[id].tries + 1 <= MAX_TRIES + 1 && s.chains[id].waited <= (Pow2(MAX_TRIES) - 1) * READY_BACKOFF
    ensures (Pow2(MAX_TRIES) - 1) * READY_BACKOFF == 7750
  {
    RunKeepsInv(INIT, run, s);
    assert Pow2(1) == 2 && Pow2(2) == 4 && Pow2(3) == 8 && Pow2(4) == 16;
    forall id | id in s.chains
      ensures s.chains[id].waited <= (Pow2(MAX_TRIES) - 1) * READY_BACKOFF
    {
      var c := s.chains[id];
      PowGrows(if c.phase.Backoff? then c.tries + 1 else c.tries, MAX_TRIES);
    }
  }

  /** How many steps a chain can still make. */
  function Remaining(c: Chain): nat
    requires c.tries <= MAX_TRIES
  {
    2 * (MAX_TRIES - c.tries) +
    match c.phase
    case Queued => 4
    case Adding => 3
    case Backoff => 2
    case Registering => 1
  }

  /** Each step of a chain brings its end nearer, and a chain can always make one, whatever the others
      do; so every chain ends. */
  lemma ChainsEnd(s: State, id: nat)
    requires Inv(s) && id in s.chains
    ensures exists e: Event :: e.id == id && Enabled(s, e)
    ensures forall e: Event :: e.id == id && Enabled(s, e) ==>
              id !in Apply(s, e).chains || Remaining(Apply(s, e).chains[id]) < Remaining(s.chains[id])
  {
    match s.chains[id].phase {
      case Queued => assert Enabled(s, Enter(id));
      case Adding => assert Enabled(s, Added(id));
      case Backoff => assert Enabled(s, Retry(id));
      case Registering => assert Enabled(s, Register(id));
    }
  }

  /** When a timeout check stops being active its index is no longer pending, and if it stopped because
      the device never became ready its next step waits for input from the device. */
  lemma EndRemovesIndex(s: State, e: Event)
    requires Inv(s) && Enabled(s, e) && Active(s, e.id) && !Active(Apply(s, e), e.id)
    ensures s.chains[e.id].index !in Apply(s, e).pending
    ensures e.NotReady? ==>
              Enabled(Apply(s, e), Register(e.id)) && s.chains[e.id].index in Apply(Apply(s, e), Register(e.id)).waiters
    ensures e.Added? ==> s.chains[e.id].index !in Apply(s, e).waiters
  {
  }

  // ---------------------------------------------------------------------------------------------
  // One timeout check for each index
  // ---------------------------------------------------------------------------------------------

  /** Every active timeout check has its index pending and is the only one for it. */
  ghost predicate Tight(s: State) {
    && (forall id :: Active(s, id) ==> s.chains[id].index in s.pending)
    && (forall a, b :: Active(s, a) && Active(s, b) && s.chains[a].index == s.chains[b].index ==> a == b)
  }

  /** Whether this step ends a chain started by a connection report while a timeout check of the same
      device is pending. */
  predicate Steals(s: State, e: Event) {
    (e.Added? || e.Failed?) && e.id in s.chains && !s.chains[e.id].timeoutCheck && s.chains[e.id].index in s.pending
  }

  lemma TightStep(s: State, e: Event)
    requires Inv(s) && Tight(s) && Enabled(s, e)
    ensures Tight(Apply(s, e)) <==> !Steals(s, e)
  {
    var t := Apply(s, e);
    StepChangesOne(s, e);
    if Steals(s, e) {
      var index := s.chains[e.id].index;
      var id :| Active(s, id) && s.chains[id].index == index;
      assert Active(t, id) && t.chains[id].index !in t.pending;
    } else {
      forall a | Active(t, a)
        ensures t.chains[a].index in t.pending
      {
        if a != e.id {
          assert Active(s, a);
        }
      }
      forall a, b | Active(t, a) && Active(t, b) && t.chains[a].index == t.chains[b].index
        ensures a == b
      {
        if a != e.id {
          assert Active(s, a);
        }
        if b != e.id {
          assert Active(s, b);
        }
      }
    }
  }

  ghost predicate StaysTight(s: State, run: seq<Event>)
    decreases |run|
  {
    Tight(s) && (run != [] && Enabled(s, run[0]) ==> StaysTight(Apply(s, run[0]), run[1..]))
  }

  predicate NothingStolen(s: State, run: seq<Event>)
    decreases |run|
  {
    run != [] && Enabled(s, run[0]) ==> !Steals(s, run[0]) && NothingStolen(Apply(s, run[0]), run[1..])
  }

  /** Throughout a run each device has at most one timeout check under way, and `pending` is exactly the
      set of their indices, if and only if no chain started by a connection report ended while a timeout
      check of its device was pending. */
  lemma {:induction false} OneCheckPerDevice(s: State, run: seq<Event>, s': State)
    requires Inv(s) && Tight(s) && Leads(s, run, s')
    ensures StaysTight(s, run) <==> NothingStolen(s, run)
    decreases |run|
  {
    if run == [] {
    } else {
      StepKeepsInv(s, run[0]);
      TightStep(s, run[0]);
      if !Steals(s, run[0]) {
        OneCheckPerDevice(Apply(s, run[0]), run[1..], s');
      } else {
        assert !Tight(Apply(s, run[0]));
      }
    }
  }

  /** Such a run exists: a timeout check is being tried, a connection report adds the device, and a second
      timeout check of the same device then passes the guard. */
  lemma TwoChecksExample(index: int) returns (run: seq<Event>, s: State)
    ensures Leads(INIT, run, s)
    ensures Active(s, 0) && Active(s, 2) && s.chains[0].index == s.chains[2].index == index
  {
    var s1 := Apply(INIT, Start(0, index, true));
    var s2 := Apply(s1, Enter(0));
    var s3 := Apply(s2, Start(1, index, false));
    var s4 := Apply(s3, Enter(1));
    var s5 := Apply(s4, Added(1));
    var s6 := Apply(s5, Start(2, index, true));
    var s7 := Apply(s6, Enter(2));
    var r6 := [Enter(2)];
    var r5 := [Start(2, index, true)] + r6;
    var r4 := [Added(1)] + r5;
    var r3 := [Enter(1)] + r4;
    var r2 := [Start(1, index, false)] + r3;
    var r1 := [Enter(0)] + r2;
    run, s := [Start(0, index, true)] + r1, s7;
    assert Leads(s7, [], s7) && r6[1..] == [] && r5[1..] == r6 && r4[1..] == r5;
    assert Leads(s4, r4, s7);
    assert r3[1..] == r4 && r2[1..] == r3;
    assert Leads(s2, r2, s7);
    assert r1[1..] == r2 && run[1..] == r1;
    assert Leads(INIT, run, s);
  }

  // ---------------------------------------------------------------------------------------------
  // The devices waited for
  // ---------------------------------------------------------------------------------------------

  /** The device that a step of a chain is about. */
  function IndexOf(s: State, e: Event): int
    requires Enabled(s, e)
  {
    if e.Start? then e.index else s.chains[e.id].index
  }

  /** Whether, of the steps about this device that register a waiter or add it, the last one registered;
      `before` answers for a run without such steps. */
  predicate LastRegistered(s: State, run: seq<Event>, index: int, before: bool)
    decreases |run|
  {
    if run == [] || !Enabled(s, run[0]) then before
    else
      var e := run[0];
      var now := if IndexOf(s, e) != index || !(e.Register? || e.Added?) then before else e.Register?;
      LastRegistered(Apply(s, e), run[1..], index, now)
  }

  lemma {:induction false} WaitersFrom(s: State, run: seq<Event>, s': State, index: int)
    requires Leads(s, run, s')
    ensures index in s'.waiters <==> LastRegistered(s, run, index, index in s.waiters)
    decreases |run|
  {
    if run == [] {
    } else {
      WaitersFrom(Apply(s, run[0]), run[1..], s', index);
    }
  }

  /** After any run a device is waited for if and only if a timeout check of it gave up and registered a
      waiter, and no chain has added it since. */
  lemma {:induction false} WaitersAre(run: seq<Event>, s: State, index: int)
    requires Leads(INIT, run, s)
    ensures index in s.waiters <==> LastRegistered(INIT, run, index, false)
  {
    WaitersFrom(INIT, run, s, index);
  }
}
