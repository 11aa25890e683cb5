/** Diverted buttons (src/logid/features/RemapButton.cpp): reports of which controls are down become
    press, release and move calls on the buttons. */
module RemapButtons {
  import opened Common

  /** The elements of s that are not in `gone`, in order. */
  function Without(s: seq<nat>, gone: seq<nat>): seq<nat> {
    if s == [] then []
    else
      var rest, last := Without(s[..|s| - 1], gone), s[|s| - 1];
      if last in gone then rest else rest + [last]
  }

  datatype Call = Press(cid: nat) | Release(cid: nat)

  /** A press for every known control of `now` that is not in `before`, in order. */
  function PressCalls(now: seq<nat>, before: seq<nat>, controls: set<nat>): seq<Call> {
    if now == [] then []
    else
      var rest, last := PressCalls(now[..|now| - 1], before, controls), now[|now| - 1];
      if last !in before && last in controls then rest + [Press(last)] else rest
  }

  /** A release for every known control of s, in order. */
  function ReleaseCalls(s: seq<nat>, controls: set<nat>): seq<Call> {
    if s == [] then []
    else
      var rest, last := ReleaseCalls(s[..|s| - 1], controls), s[|s| - 1];
      if last in controls then rest + [Release(last)] else rest
  }

  /** The calls of one button report. */
  function ReportCalls(before: seq<nat>, now: seq<nat>, controls: set<nat>): seq<Call> {
    PressCalls(now, before, controls) + ReleaseCalls(Without(before, now), controls)
  }

  lemma {:induction false} WithoutAppend(s: seq<nat>, n: nat, gone: seq<nat>)
    ensures Without(s + [n], gone) == if n in gone then Without(s, gone) else Without(s, gone) + [n]
  {
    assert (s + [n])[..|s + [n]| - 1] == s;
  }

  lemma {:induction false} PressAppend(now: seq<nat>, n: nat, before: seq<nat>, controls: set<nat>)
    ensures PressCalls(now + [n], before, controls) ==
            if n !in before && n in controls then PressCalls(now, before, controls) + [Press(n)]
            else PressCalls(now, before, controls)
  {
    assert (now + [n])[..|now + [n]| - 1] == now;
  }

  lemma {:induction false} ReleaseAppend(s: seq<nat>, n: nat, controls: set<nat>)
    ensures ReleaseCalls(s + [n], controls) ==
            if n in controls then ReleaseCalls(s, controls) + [Release(n)] else ReleaseCalls(s, controls)
  {
    assert (s + [n])[..|s + [n]| - 1] == s;
  }

  lemma {:induction false} WithoutContains(s: seq<nat>, gone: seq<nat>, n: nat)
    ensures n in Without(s, gone) <==> n in s && n !in gone
    decreases |s|
  {
    if s == [] {
    } else {
      WithoutContains(s[..|s| - 1], gone, n);
      assert s == s[..|s| - 1] + [s[|s| - 1]];
    }
  }

  lemma {:induction false} WithoutNothing(s: seq<nat>)
    ensures Without(s, []) == s
    decreases |s|
  {
    if s == [] {
    } else {
      WithoutNothing(s[..|s| - 1]);
    }
  }

  lemma {:induction false} WithoutOneMore(s: seq<nat>, gone: seq<nat>, n: nat)
    ensures Without(Without(s, gone), [n]) == Without(s, gone + [n])
    decreases |s|
  {
    if s == [] {
    } else {
      var front, last := s[..|s| - 1], s[|s| - 1];
      WithoutOneMore(front, gone, n);
      if last !in gone {
        WithoutAppend(Without(front, gone), last, [n]);
      }
      assert last in gone + [n] <==> last in gone || last == n;
    }
  }

  lemma {:induction false} WithoutAbsent(s: seq<nat>, gone: seq<nat>)
    requires forall n :: n in s ==> n !in gone
    ensures Without(s, gone) == s
    decreases |s|
  {
    if s == [] {
    } else {
      assert s[|s| - 1] in s;
      WithoutAbsent(s[..|s| - 1], gone);
    }
  }

  lemma PrefixStep(s: seq<nat>, i: nat)
    requires StrictlyAscending(s) && i < |s|
    ensures s[i] !in s[..i] && s[..i] + [s[i]] == s[..i + 1]
  {
  }

  /** The feature's fields; `calls` records the calls made on its buttons.  Both sets are kept in the
      order in which they are iterated. */
  class RemapButton {
    const controls: set<nat>
    var pressedButtons: seq<nat>
    var calls: seq<Call>

    ghost predicate Valid()
      reads this
    {
      StrictlyAscending(pressedButtons)
    }

    constructor (controls: set<nat>)
      ensures this.controls == controls && Valid() && pressedButtons == [] && calls == []
    {
      this.controls := controls;
      pressedButtons, calls := [], [];
    }

    method ReleaseAll(cids: seq<nat>)
      modifies this`calls
      ensures calls == old(calls) + ReleaseCalls(cids, controls)
    {
      var i := 0;
      while i < |cids|
        invariant i <= |cids|
        invariant calls == old(calls) + ReleaseCalls(cids[..i], controls)
      {
        ReleaseAppend(cids[..i], cids[i], controls);
        assert cids[..i] + [cids[i]] == cids[..i + 1];
        if cids[i] in controls {
          calls := calls + [Release(cids[i])];
        }
        i := i + 1;
      }
      assert cids[..|cids|] == cids;
    }

    /** One turn of the first loop of _buttonEvent. */
    method EraseOrPress(newState: seq<nat>, i: nat, ghost before: seq<nat>, ghost made: seq<Call>)
      requires StrictlyAscending(newState) && i < |newState|
      requires pressedButtons == Without(before, newState[..i])
      requires calls == made + PressCalls(newState[..i], before, controls)
      modifies this
      ensures pressedButtons == Without(before, newState[..i + 1])
      ensures calls == made + PressCalls(newState[..i + 1], before, controls)
    {
      var cid := newState[i];
      PrefixStep(newState, i);
      PressAppend(newState[..i], cid, before, controls);
      WithoutContains(before, newState[..i], cid);
      WithoutOneMore(before, newState[..i], cid);
      if cid in pressedButtons {
        pressedButtons := Without(pressedButtons, [cid]);
      } else {
        WithoutAbsent(pressedButtons, [cid]);
        if cid in controls {
          calls := calls + [Press(cid)];
        }
      }
    }

    /** The first loop of _buttonEvent: what is left of the old state has come up. */
    method PressAdded(newState: seq<nat>)
      requires StrictlyAscending(newState)
      modifies this
      ensures pressedButtons == Without(old(pressedButtons), newState)
      ensures calls == old(calls) + PressCalls(newState, old(pressedButtons), controls)
    {
      ghost var before, made := pressedButtons, calls;
      WithoutNothing(before);
      var i := 0;
      while i < |newState|
        invariant i <= |newState|
        invariant pressedButtons == Without(before, newState[..i])
        invariant calls == made + PressCalls(newState[..i], before, controls)
      {
        EraseOrPress(newState, i, before, made);
        i := i + 1;
      }
      assert newState[..|newState|] == newState;
    }

    method ButtonEvent(newState: seq<nat>)
      requires Valid() && StrictlyAscending(newState)
      modifies this
      ensures Valid() && pressedButtons == newState
      ensures calls == old(calls) + ReportCalls(old(pressedButtons), newState, controls)
    {
      PressAdded(newState);
      ReleaseAll(pressedButtons);
      pressedButtons := newState;
    }

    method OnSleep()
      requires Valid()
      modifies this
      ensures Valid() && pressedButtons == []
      ensures calls == old(calls) + ReportCalls(old(pressedButtons), [], controls)
    {
      WithoutNothing(pressedButtons);
      ReleaseAll(pressedButtons);
      pressedButtons := [];
    }
  }

  // ---------------------------------------------------------------------------------------------
  // What one report does
  // ---------------------------------------------------------------------------------------------

  /** The calls made for one control, true for a press. */
  function CallsFor(calls: seq<Call>, cid: nat): seq<bool> {
    if calls == [] then []
    else
      var rest, last := CallsFor(calls[..|calls| - 1], cid), calls[|calls| - 1];
      if last.cid == cid then rest + [last.Press?] else rest
  }

  lemma {:induction false} CallsForConcat(a: seq<Call>, b: seq<Call>, cid: nat)
    ensures CallsFor(a + b, cid) == CallsFor(a, cid) + CallsFor(b, cid)
    decreases |b|
  {
    if b == [] {
      assert a + b == a;
    } else {
      CallsForConcat(a, b[..|b| - 1], cid);
      assert (a + b)[..|a + b| - 1] == a + b[..|b| - 1];
    }
  }

  lemma {:induction false} PressesFor(now: seq<nat>, before: seq<nat>, controls: set<nat>, cid: nat)
    requires StrictlyAscending(now)
    ensures CallsFor(PressCalls(now, before, controls), cid) ==
            if cid in now && cid !in before && cid in controls then [true] else []
    decreases |now|
  {
    if now == [] {
    } else {
      var front, last := now[..|now| - 1], now[|now| - 1];
      PressesFor(front, before, controls, cid);
      assert now == front + [last] && last !in front;
      if last !in before && last in controls {
        OneCall(Press(last), cid);
        CallsForConcat(PressCalls(front, before, controls), [Press(last)], cid);
      }
    }
  }

  lemma {:induction false} ReleasesFor(s: seq<nat>, controls: set<nat>, cid: nat)
    requires StrictlyAscending(s)
    ensures CallsFor(ReleaseCalls(s, controls), cid) == if cid in s && cid in controls then [false] else []
    decreases |s|
  {
    if s == [] {
    } else {
      var front, last := s[..|s| - 1], s[|s| - 1];
      ReleasesFor(front, controls, cid);
      assert s == front + [last] && last !in front;
      if last in controls {
        OneCall(Release(last), cid);
        CallsForConcat(ReleaseCalls(front, controls), [Release(last)], cid);
      }
    }
  }

  lemma {:induction false} OneCall(c: Call, cid: nat)
    ensures CallsFor([c], cid) == if c.cid == cid then [c.Press?] else []
  {
    assert [c][..0] == [];
  }

  lemma AscendingAppend(rest: seq<nat>, front: seq<nat>, last: nat)
    requires StrictlyAscending(rest) && StrictlyAscending(front + [last])
    requires forall n :: n in rest ==> n in front
    ensures StrictlyAscending(rest + [last])
  {
    var s := front + [last];
    forall i | 0 <= i < |rest|
      ensures rest[i] < last
    {
      assert rest[i] in front;
      var k :| 0 <= k < |front| && front[k] == rest[i];
      assert s[k] < s[|front|];
    }
  }

  lemma {:induction false} WithoutAscending(s: seq<nat>, gone: seq<nat>)
    requires StrictlyAscending(s)
    ensures StrictlyAscending(Without(s, gone))
    ensures forall n :: n in Without(s, gone) ==> n in s
    decreases |s|
  {
    if s == [] {
    } else {
      var front, last := s[..|s| - 1], s[|s| - 1];
      WithoutAscending(front, gone);
      var rest := Without(front, gone);
      assert s == front + [last];
      AscendingAppend(rest, front, last);
    }
  }

  /** A report presses a known control once if it has come down, releases it once if it has come up, and
      otherwise leaves it alone; unknown controls get no call. */
  lemma {:induction false} ReportCallsFor(before: seq<nat>, now: seq<nat>, controls: set<nat>, cid: nat)
    requires StrictlyAscending(before) && StrictlyAscending(now)
    ensures CallsFor(ReportCalls(before, now, controls), cid) ==
            if cid !in controls then []
            else if cid in now && cid !in before then [true]
            else if cid in before && cid !in now then [false]
            else []
  {
    PressesFor(now, before, controls, cid);
    WithoutAscending(before, now);
    WithoutContains(before, now, cid);
    ReleasesFor(Without(before, now), controls, cid);
    CallsForConcat(PressCalls(now, before, controls), ReleaseCalls(Without(before, now), controls), cid);
  }

  predicate Ordered(c: Call, d: Call) {
    match (c, d)
    case (Press(m), Press(n)) => m < n
    case (Release(m), Release(n)) => m < n
    case (Press(_), Release(_)) => true
    case (Release(_), Press(_)) => false
  }

  predicate AllOrdered(calls: seq<Call>) {
    forall i, j :: 0 <= i < j < |calls| ==> Ordered(calls[i], calls[j])
  }

  lemma {:induction false} PressesOrdered(now: seq<nat>, before: seq<nat>, controls: set<nat>)
    requires StrictlyAscending(now)
    ensures AllOrdered(PressCalls(now, before, controls))
    ensures forall c :: c in PressCalls(now, before, controls) ==> c.Press? && c.cid in now
    decreases |now|
  {
    if now == [] {
    } else {
      var front, last := now[..|now| - 1], now[|now| - 1];
      PressesOrdered(front, before, controls);
      var calls := PressCalls(front, before, controls);
      forall i | 0 <= i < |calls|
        ensures Ordered(calls[i], Press(last))
      {
        assert calls[i] in calls && calls[i].cid in front;
      }
    }
  }

  lemma {:induction false} ReleasesOrdered(s: seq<nat>, controls: set<nat>)
    requires StrictlyAscending(s)
    ensures AllOrdered(ReleaseCalls(s, controls))
    ensures forall c :: c in ReleaseCalls(s, controls) ==> c.Release? && c.cid in s
    decreases |s|
  {
    if s == [] {
    } else {
      var front, last := s[..|s| - 1], s[|s| - 1];
      ReleasesOrdered(front, controls);
      var calls := ReleaseCalls(front, controls);
      forall i | 0 <= i < |calls|
        ensures Ordered(calls[i], Release(last))
      {
        assert calls[i] in calls && calls[i].cid in front;
      }
    }
  }

  /** All presses of a report come before its releases, each in ascending order of the controls. */
  lemma ReportCallsOrdered(before: seq<nat>, now: seq<nat>, controls: set<nat>)
    requires StrictlyAscending(before) && StrictlyAscending(now)
    ensures AllOrdered(ReportCalls(before, now, controls))
  {
    PressesOrdered(now, before, controls);
    WithoutAscending(before, now);
    ReleasesOrdered(Without(before, now), controls);
    var presses, releases := PressCalls(now, before, controls), ReleaseCalls(Without(before, now), controls);
    assert forall i :: 0 <= i < |presses| ==> presses[i] in presses;
    assert forall i :: 0 <= i < |releases| ==> releases[i] in releases;
  }

  // ---------------------------------------------------------------------------------------------
  // Any run of reports and sleeps
  // ---------------------------------------------------------------------------------------------

  datatype Event = Report(now: seq<nat>) | Sleep

  predicate WellFormed(run: seq<Event>) {
    forall e :: e in run && e.Report? ==> StrictlyAscending(e.now)
  }

  /** The controls down after a run. */
  function Down(run: seq<Event>): seq<nat> {
    if run == [] || run[|run| - 1].Sleep? then [] else run[|run| - 1].now
  }

  function CallsOver(run: seq<Event>, controls: set<nat>): seq<Call> {
    if run == [] then []
    else CallsOver(run[..|run| - 1], controls) + ReportCalls(Down(run[..|run| - 1]), Down(run), controls)
  }

  predicate Alternates(presses: seq<bool>) {
    forall i :: 0 <= i < |presses| ==> (presses[i] <==> i % 2 == 0)
  }

  /** What a control has seen so far fits whether it is down. */
  predicate SeenRight(calls: seq<bool>, known: bool, down: bool) {
    && Alternates(calls)
    && (known ==> (|calls| % 2 == 1 <==> down))
    && (!known ==> calls == [])
  }

  lemma {:induction false} ReportSeenRight(
    calls: seq<bool>, before: seq<nat>, now: seq<nat>, controls: set<nat>, cid: nat)
    requires StrictlyAscending(before) && StrictlyAscending(now)
    requires SeenRight(calls, cid in controls, cid in before)
    ensures SeenRight(calls + CallsFor(ReportCalls(before, now, controls), cid), cid in controls, cid in now)
  {
    ReportCallsFor(before, now, controls, cid);
    if cid in controls {
      AlternatesAppend(calls, cid in before, cid in now);
    }
    assert calls + [] == calls;
  }

  /** Over any run of reports and sleeps a known control sees press, release, press, ..., it is pressed
      exactly while it is among the controls down, and an unknown control sees nothing. */
  lemma {:induction false} CallsAlternate(run: seq<Event>, controls: set<nat>, cid: nat)
    requires WellFormed(run)
    ensures var calls := CallsFor(CallsOver(run, controls), cid);
            && Alternates(calls)
            && (cid in controls ==> (|calls| % 2 == 1 <==> cid in Down(run)))
            && (cid !in controls ==> calls == [])
    decreases |run|
  {
    if run == [] {
    } else {
      var front := run[..|run| - 1];
      CallsAlternate(front, controls, cid);
      DownAscending(front);
      DownAscending(run);
      ReportSeenRight(CallsFor(CallsOver(front, controls), cid), Down(front), Down(run), controls, cid);
      CallsForConcat(CallsOver(front, controls), ReportCalls(Down(front), Down(run), controls), cid);
    }
  }

  lemma AlternatesAppend(calls: seq<bool>, before: bool, now: bool)
    requires Alternates(calls) && (|calls| % 2 == 1 <==> before)
    ensures var all := if before == now then calls else calls + [now];
            Alternates(all) && (|all| % 2 == 1 <==> now)
  {
  }

  lemma DownAscending(run: seq<Event>)
    requires WellFormed(run)
    ensures StrictlyAscending(Down(run))
  {
    if run != [] {
      assert run[|run| - 1] in run;
    }
  }

  /** After a sleep nothing is left pressed. */
  lemma {:induction false} SleepReleasesAll(run: seq<Event>, controls: set<nat>, cid: nat)
    requires WellFormed(run) && run != [] && run[|run| - 1] == Sleep
    ensures |CallsFor(CallsOver(run, controls), cid)| % 2 == 0
  {
    CallsAlternate(run, controls, cid);
  }

  // ---------------------------------------------------------------------------------------------
  // The first move after a press
  // ---------------------------------------------------------------------------------------------

  datatype Input = Pressed | Released | Moved(x: int, y: int)

  /** One button; `passed` records what reached its action. */
  class Button {
    const hasAction: bool
    var firstMove: bool
    var passed: seq<Input>

    constructor (hasAction: bool)
      ensures this.hasAction == hasAction && firstMove == Pending([]) && passed == Passed([], hasAction)
    {
      this.hasAction, firstMove, passed := hasAction, false, [];
    }

    method Handle(e: Input, ghost run: seq<Input>)
      requires firstMove == Pending(run) && passed == Passed(run, hasAction)
      modifies this
      ensures firstMove == Pending(run + [e]) && passed == Passed(run + [e], hasAction)
    {
      PassedAppend(run, e, hasAction);
      match e {
        case Pressed =>
          firstMove := true;
          if hasAction {
            passed := passed + [e];
          }
        case Released =>
          if hasAction {
            passed := passed + [e];
          }
        case Moved(x, y) =>
          if hasAction && !firstMove {
            passed := passed + [e];
          } else if firstMove {
            firstMove := false;
          }
      }
    }
  }

  /** Whether the button has been pressed since it last saw a move. */
  function Pending(run: seq<Input>): bool {
    if run == [] then false
    else match run[|run| - 1]
         case Pressed => true
         case Released => Pending(run[..|run| - 1])
         case Moved(_, _) => false
  }

  function Passed(run: seq<Input>, hasAction: bool): seq<Input> {
    if run == [] then []
    else
      var front, last := run[..|run| - 1], run[|run| - 1];
      if hasAction && !(last.Moved? && Pending(front)) then Passed(front, hasAction) + [last]
      else Passed(front, hasAction)
  }

  /** Pressed at p, and no move since. */
  predicate PressedSince(run: seq<Input>, p: int) {
    0 <= p < |run| && run[p].Pressed? && forall m :: p < m < |run| ==> !run[m].Moved?
  }

  lemma PressedSinceLast(run: seq<Input>, e: Input, p: nat)
    requires p < |run|
    ensures PressedSince(run + [e], p) <==> PressedSince(run, p) && !e.Moved?
  {
    var more := run + [e];
    assert more[|run|] == e && forall m :: 0 <= m < |run| ==> more[m] == run[m];
  }

  lemma {:induction false} PassedAppend(run: seq<Input>, e: Input, hasAction: bool)
    ensures Passed(run + [e], hasAction) ==
            if !hasAction || (e.Moved? && Pending(run)) then Passed(run, hasAction) else Passed(run, hasAction) + [e]
    ensures Pending(run + [e]) <==> e.Pressed? || (e.Released? && Pending(run))
  {
    assert (run + [e])[..|run + [e]| - 1] == run;
  }

  lemma {:induction false} PendingIs(run: seq<Input>)
    ensures Pending(run) <==> exists p :: PressedSince(run, p)
    decreases |run|
  {
    if run == [] {
    } else {
      var n := |run| - 1;
      var front, e := run[..n], run[n];
      assert run == front + [e];
      PendingIs(front);
      forall p: nat | p < n
        ensures PressedSince(run, p) <==> PressedSince(front, p) && !e.Moved?
      {
        PressedSinceLast(front, e, p);
      }
      assert PressedSince(run, n) <==> e.Pressed?;
    }
  }

  /** Every press, release and move reaches the action of a button that has one, except a move when there
      was a press and no move since. */
  lemma {:induction false} ReachesAction(run: seq<Input>, e: Input, hasAction: bool)
    ensures var kept := hasAction && !(e.Moved? && exists p :: PressedSince(run, p));
            Passed(run + [e], hasAction) == Passed(run, hasAction) + if kept then [e] else []
  {
    PendingIs(run);
    PassedAppend(run, e, hasAction);
  }

  /** A press reaches the action; of the moves that follow it the first never does and all the others do. */
  lemma {:induction false} FirstMoveIsSwallowed(run: seq<Input>, moves: seq<Input>)
    requires forall m :: m in moves ==> m.Moved?
    ensures Passed(run + [Pressed] + moves, true) ==
            if moves == [] then Passed(run, true) + [Pressed] else Passed(run, true) + [Pressed] + moves[1..]
    ensures Pending(run + [Pressed] + moves) <==> moves == []
    decreases |moves|
  {
    if moves == [] {
      PassedAppend(run, Pressed, true);
      assert run + [Pressed] + moves == run + [Pressed];
    } else {
      var front, last := moves[..|moves| - 1], moves[|moves| - 1];
      assert last in moves && moves == front + [last];
      FirstMoveIsSwallowed(run, front);
      PassedAppend(run + [Pressed] + front, last, true);
      AppendLast(run + [Pressed], front, last);
      TailOfAppend(Passed(run, true) + [Pressed], front, last);
    }
  }

  lemma AppendLast(a: seq<Input>, b: seq<Input>, e: Input)
    ensures (a + b) + [e] == a + (b + [e])
  {
  }

  lemma TailOfAppend(a: seq<Input>, b: seq<Input>, e: Input)
    ensures a + (b + [e])[1..] == if b == [] then a else (a + b[1..]) + [e]
  {
    if b == [] {
      assert (b + [e])[1..] == [];
    } else {
      assert (b + [e])[1..] == b[1..] + [e];
    }
  }
}
