/** The touchpad gesture action (src/logid/actions/TouchpadGestureAction.cpp): one press of a button
    either drives the virtual touchpad or, while the pointer has hardly moved, is a click. */
module TouchpadGesture {
  import opened Common
  import Touchpad

  const DEFAULT_SCALE := 4.0
  const DEFAULT_THRESHOLD := 5

  datatype Config = Config(
    fingers: Option<nat>,
    scale: Option<real>,
    invert: Option<bool>,
    clickThreshold: Option<int>)

  function Fingers(c: Config): nat {
    Touchpad.Clamp(c.fingers.GetOr(Touchpad.MIN_FINGERS), Touchpad.MIN_FINGERS, Touchpad.MAX_FINGERS)
  }

  function Threshold(c: Config): int {
    var t := c.clickThreshold.GetOr(DEFAULT_THRESHOLD);
    if t < 0 then 0 else t
  }

  function Abs(x: int): nat {
    if x < 0 then -x else x
  }

  /** lround: the nearest integer, halves away from zero. */
  function Round(v: real): int {
    if v < 0.0 then -((0.5 - v).Floor) else (v + 0.5).Floor
  }

  function Scale(scale: real, x: int): int {
    Round(x as real * scale)
  }

  function Scaled(c: Config, x: int): int {
    var r := Scale(c.scale.GetOr(DEFAULT_SCALE), x);
    if c.invert.GetOr(false) then -r else r
  }

  /** A call made on another object: the touchpad, or the click action. */
  datatype Call = Pad(op: Touchpad.Op) | ClickPress | ClickRelease

  datatype State = State(
    config: Config,
    pressed: bool,
    movement: int,
    pendingX: int,
    pendingY: int,
    touchpadActive: bool)

  datatype Input = Press | MoveBy(x: int, y: int) | Release | Configure(config: Config)

  function Next(hasClick: bool, s: State, e: Input): State {
    match e
    case Press => State(s.config, true, 0, 0, 0, !hasClick)
    case MoveBy(x, y) =>
      if !s.pressed then s
      else
        var t := s.(movement := s.movement + Abs(x) + Abs(y));
        if s.touchpadActive then t
        else if t.movement <= Threshold(s.config)
        then t.(pendingX := s.pendingX + Scaled(s.config, x), pendingY := s.pendingY + Scaled(s.config, y))
        else t.(pendingX := 0, pendingY := 0, touchpadActive := true)
    case Release => s.(pressed := false, touchpadActive := false)
    case Configure(c) => s.(config := c)
  }

  function Calls(hasClick: bool, s: State, e: Input): seq<Call> {
    match e
    case Press => if hasClick then [] else [Pad(Touchpad.Begin(Fingers(s.config)))]
    case MoveBy(x, y) =>
      var dx, dy := Scaled(s.config, x), Scaled(s.config, y);
      if !s.pressed then []
      else if s.touchpadActive then [Pad(Touchpad.Move(dx, dy))]
      else if s.movement + Abs(x) + Abs(y) <= Threshold(s.config) then []
      else [Pad(Touchpad.Begin(Fingers(s.config))), Pad(Touchpad.Move(s.pendingX + dx, s.pendingY + dy))]
    case Release =>
      if s.touchpadActive then [Pad(Touchpad.End)]
      else if hasClick && s.movement <= Threshold(s.config) then [ClickPress, ClickRelease]
      else []
    case Configure(_) => []
  }

  /** The action's fields; `calls` records what it asked of the touchpad and the click action.
      Handlers and setters exclude each other through the configuration mutex. */
  class TouchpadGestureAction {
    const hasClick: bool
    var config: Config
    var pressed: bool
    var movement: int
    var pendingX: int
    var pendingY: int
    var touchpadActive: bool
    var calls: seq<Call>

    ghost function View(): State
      reads this
    {
      State(config, pressed, movement, pendingX, pendingY, touchpadActive)
    }

    constructor (hasClick: bool, config: Config)
      ensures this.hasClick == hasClick && calls == []
      ensures View() == State(config, false, 0, 0, 0, false)
    {
      this.hasClick, this.config := hasClick, config;
      pressed, movement, pendingX, pendingY, touchpadActive, calls := false, 0, 0, 0, false, [];
    }

    method BeginTouchpadGesture()
      modifies this`calls, this`touchpadActive
      ensures touchpadActive && calls == old(calls) + [Pad(Touchpad.Begin(Fingers(config)))]
    {
      calls := calls + [Pad(Touchpad.Begin(Fingers(config)))];
      touchpadActive := true;
    }

    method OnPress()
      modifies this
      ensures View() == Next(hasClick, old(View()), Press)
      ensures calls == old(calls) + Calls(hasClick, old(View()), Press)
    {
      pressed := true;
      movement, pendingX, pendingY := 0, 0, 0;
      touchpadActive := false;
      if !hasClick {
        BeginTouchpadGesture();
      }
    }

    method OnRelease()
      modifies this
      ensures View() == Next(hasClick, old(View()), Release)
      ensures calls == old(calls) + Calls(hasClick, old(View()), Release)
    {
      if touchpadActive {
        calls := calls + [Pad(Touchpad.End)];
      } else if hasClick && movement <= Threshold(config) {
        calls := calls + [ClickPress];
        calls := calls + [ClickRelease];
      }
      pressed := false;
      touchpadActive := false;
    }

    method OnMove(x: int, y: int)
      modifies this
      ensures View() == Next(hasClick, old(View()), MoveBy(x, y))
      ensures calls == old(calls) + Calls(hasClick, old(View()), MoveBy(x, y))
    {
      if !pressed {
        return;
      }
      var scale := config.scale.GetOr(DEFAULT_SCALE);
      var scaledX, scaledY := Scale(scale, x), Scale(scale, y);
      if config.invert.GetOr(false) {
        scaledX := -scaledX;
        scaledY := -scaledY;
      }
      assert scaledX == Scaled(config, x) && scaledY == Scaled(config, y);
      movement := movement + Abs(x) + Abs(y);
      if !touchpadActive {
        pendingX := pendingX + scaledX;
        pendingY := pendingY + scaledY;
        if movement <= Threshold(config) {
          return;
        }
        BeginTouchpadGesture();
        calls := calls + [Pad(Touchpad.Move(pendingX, pendingY))];
        assert calls == old(calls) + [Pad(Touchpad.Begin(Fingers(config))), Pad(Touchpad.Move(pendingX, pendingY))];
        pendingX := 0;
        pendingY := 0;
        return;
      }
      calls := calls + [Pad(Touchpad.Move(scaledX, scaledY))];
    }

    method SetFingers(fingers: nat)
      modifies this`config
      ensures config == old(config).(fingers := Some(if fingers <= 3 then 3 else 4))
    {
      config := config.(fingers := Some(Touchpad.Clamp(fingers, Touchpad.MIN_FINGERS, Touchpad.MAX_FINGERS)));
    }

    method SetScale(scale: real)
      modifies this`config
      ensures config == old(config).(scale := if scale == 0.0 then None else Some(scale))
    {
      if scale == 0.0 {
        config := config.(scale := None);
      } else {
        config := config.(scale := Some(scale));
      }
    }

    method SetClickThreshold(threshold: int)
      modifies this`config
      ensures config == old(config).(clickThreshold := config.clickThreshold)
      ensures Threshold(config) == if threshold < 0 then 0 else threshold
    {
      if threshold == DEFAULT_THRESHOLD {
        config := config.(clickThreshold := None);
      } else {
        config := config.(clickThreshold := Some(if threshold < 0 then 0 else threshold));
      }
    }
  }

  // ---------------------------------------------------------------------------------------------
  // Rounding
  // ---------------------------------------------------------------------------------------------

  /** Rounding is within a half, exact on integers and odd, so that inverting is scaling by -scale. */
  lemma RoundNearest(v: real)
    ensures -0.5 <= Round(v) as real - v <= 0.5
    ensures Round(-v) == -Round(v)
  {
    if v == 0.0 {
      assert (0.5).Floor == 0;
    }
  }

  lemma InvertIsNegativeScale(c: Config, x: int)
    ensures Scaled(c.(invert := Some(true)), x) ==
            Scaled(c.(invert := Some(false), scale := Some(-c.scale.GetOr(DEFAULT_SCALE))), x)
  {
    var scale := c.scale.GetOr(DEFAULT_SCALE);
    RoundNearest(x as real * scale);
    assert x as real * -scale == -(x as real * scale);
  }

  /** A move is multiplied by the configured scale, by 4 when there is none, to the nearest integer, and by
      its negative when inverted. */
  lemma ScaledIs(c: Config, x: int)
    ensures var factor := (if c.scale.Some? then c.scale.value else 4.0) *
                          (if c.invert == Some(true) then -1.0 else 1.0);
            -0.5 <= Scaled(c, x) as real - x as real * factor <= 0.5
    ensures c.scale.None? ==> Scaled(c, x) == if c.invert == Some(true) then -4 * x else 4 * x
  {
    RoundNearest(x as real * c.scale.GetOr(DEFAULT_SCALE));
    if c.scale.None? {
      assert x as real * DEFAULT_SCALE == (4 * x) as real;
    }
  }

  /** The gesture has the 3 or 4 fingers asked for, else the nearest of them, 3 without a setting; a
      click is within the configured distance, 5 without a setting, 0 when that is negative. */
  lemma SettingsInForce(c: Config)
    ensures Fingers(c) == if c.fingers.None? || c.fingers.value <= 3 then 3 else 4
    ensures c.clickThreshold.None? ==> Threshold(c) == 5
    ensures c.clickThreshold.Some? ==> Threshold(c) >= 0 && Threshold(c) >= c.clickThreshold.value
    ensures c.clickThreshold.Some? ==> Threshold(c) == 0 || Threshold(c) == c.clickThreshold.value
  {
  }

  /** Each move adds its distance along both axes to the travel, whichever its direction. */
  lemma {:induction false} TravelIs(mids: seq<Input>, e: Input)
    ensures var step := Travel(mids + [e]) - Travel(mids);
            && (e.MoveBy? ==>
                  && step >= e.x + e.y && step >= e.x - e.y && step >= -e.x + e.y && step >= -e.x - e.y
                  && (step == e.x + e.y || step == e.x - e.y || step == -e.x + e.y || step == -e.x - e.y))
            && (!e.MoveBy? ==> step == 0)
  {
    assert (mids + [e])[..|mids|] == mids;
  }

  // ---------------------------------------------------------------------------------------------
  // One press and release
  // ---------------------------------------------------------------------------------------------

  predicate Between(mids: seq<Input>) {
    forall e :: e in mids ==> e.MoveBy? || e.Configure?
  }

  function After(hasClick: bool, s: State, run: seq<Input>): State {
    if run == [] then s else Next(hasClick, After(hasClick, s, run[..|run| - 1]), run[|run| - 1])
  }

  function CallsOver(hasClick: bool, s: State, run: seq<Input>): seq<Call> {
    if run == [] then []
    else CallsOver(hasClick, s, run[..|run| - 1]) + Calls(hasClick, After(hasClick, s, run[..|run| - 1]), run[|run| - 1])
  }

  /** The configuration in force after these inputs. */
  function ConfigAfter(c: Config, mids: seq<Input>): Config {
    if mids == [] then c
    else if mids[|mids| - 1].Configure? then mids[|mids| - 1].config
    else ConfigAfter(c, mids[..|mids| - 1])
  }

  /** How far the pointer has travelled, unscaled. */
  function Travel(mids: seq<Input>): nat {
    if mids == [] then 0
    else
      var e := mids[|mids| - 1];
      Travel(mids[..|mids| - 1]) + if e.MoveBy? then Abs(e.x) + Abs(e.y) else 0
  }

  /** The sum of all moves, each scaled and perhaps inverted as configured when it arrived. */
  function Motion(c: Config, mids: seq<Input>): (int, int) {
    if mids == [] then (0, 0)
    else
      var e, m, now := mids[|mids| - 1], Motion(c, mids[..|mids| - 1]), ConfigAfter(c, mids[..|mids| - 1]);
      if e.MoveBy? then (m.0 + Scaled(now, e.x), m.1 + Scaled(now, e.y)) else m
  }

  /** How many inputs come before the touchpad gesture starts: none without a click action, else those
      before the first move that takes the travel over the threshold then in force. */
  function Start(hasClick: bool, c: Config, mids: seq<Input>): (r: Option<nat>)
    ensures r.Some? ==> r.value <= |mids|
  {
    if mids == [] then (if hasClick then None else Some(0))
    else
      var front := mids[..|mids| - 1];
      match Start(hasClick, c, front)
      case Some(k) => Some(k)
      case None =>
        if mids[|mids| - 1].MoveBy? && Travel(mids) > Threshold(ConfigAfter(c, front)) then Some(|front|) else None
  }

  predicate AreMoves(calls: seq<Call>) {
    forall i :: 0 <= i < |calls| ==> calls[i].Pad? && calls[i].op.Move?
  }

  /** The sum of what moveGesture was given. */
  function Sent(calls: seq<Call>): (int, int) {
    if calls == [] then (0, 0)
    else
      var m, last := Sent(calls[..|calls| - 1]), calls[|calls| - 1];
      if last.Pad? && last.op.Move? then (m.0 + last.op.dx, m.1 + last.op.dy) else m
  }

  /** A touchpad gesture: begun with these fingers, moved by these sums in all, ended. */
  predicate IsGesture(calls: seq<Call>, fingers: nat, motion: (int, int)) {
    && |calls| >= 2
    && calls[0] == Pad(Touchpad.Begin(fingers))
    && calls[|calls| - 1] == Pad(Touchpad.End)
    && AreMoves(calls[1..|calls| - 1])
    && Sent(calls) == motion
  }

  /** The configuration in force when the touchpad gesture starts. */
  function StartConfig(hasClick: bool, c: Config, mids: seq<Input>): Option<Config> {
    match Start(hasClick, c, mids)
    case None => None
    case Some(k) => Some(ConfigAfter(c, mids[..k]))
  }

  /** Before the gesture starts all motion is held back and nothing has been asked of the touchpad; since it
      started everything has been sent. */
  predicate Progress(s: State, calls: seq<Call>, begun: Option<Config>, motion: (int, int)) {
    match begun
    case None => !s.touchpadActive && calls == [] && (s.pendingX, s.pendingY) == motion
    case Some(b) =>
      && s.touchpadActive
      && |calls| >= 1
      && calls[0] == Pad(Touchpad.Begin(Fingers(b)))
      && AreMoves(calls[1..])
      && Sent(calls) == motion
  }

  predicate Underway(hasClick: bool, c: Config, mids: seq<Input>, s: State, calls: seq<Call>) {
    && s.pressed
    && s.config == ConfigAfter(c, mids)
    && s.movement == Travel(mids)
    && Progress(s, calls, StartConfig(hasClick, c, mids), Motion(c, mids))
  }

  lemma {:induction false} SentAppend(calls: seq<Call>, last: Call)
    ensures var m := Sent(calls);
            Sent(calls + [last]) ==
            if last.Pad? && last.op.Move? then (m.0 + last.op.dx, m.1 + last.op.dy) else m
  {
    assert (calls + [last])[..|calls + [last]| - 1] == calls;
  }

  /** The calls of one move, given the scaled move. */
  function MoveCalls(s: State, travelled: int, dx: int, dy: int): seq<Call> {
    if s.touchpadActive then [Pad(Touchpad.Move(dx, dy))]
    else if travelled <= Threshold(s.config) then []
    else [Pad(Touchpad.Begin(Fingers(s.config))), Pad(Touchpad.Move(s.pendingX + dx, s.pendingY + dy))]
  }

  /** The state after one move, given the travel so far and the scaled move. */
  function Advance(s: State, travelled: int, dx: int, dy: int): State {
    var t := s.(movement := travelled);
    if s.touchpadActive then t
    else if travelled <= Threshold(s.config) then t.(pendingX := s.pendingX + dx, pendingY := s.pendingY + dy)
    else t.(pendingX := 0, pendingY := 0, touchpadActive := true)
  }

  lemma NextIsAdvance(hasClick: bool, s: State, x: int, y: int)
    requires s.pressed
    ensures var travelled, dx, dy := s.movement + Abs(x) + Abs(y), Scaled(s.config, x), Scaled(s.config, y);
            && Next(hasClick, s, MoveBy(x, y)) == Advance(s, travelled, dx, dy)
            && Calls(hasClick, s, MoveBy(x, y)) == MoveCalls(s, travelled, dx, dy)
  {
  }

  lemma ProgressMove(
    s: State, calls: seq<Call>, begun: Option<Config>, motion: (int, int), travelled: int, dx: int, dy: int)
    requires Progress(s, calls, begun, motion)
    ensures Progress(Advance(s, travelled, dx, dy), calls + MoveCalls(s, travelled, dx, dy),
                     if begun.None? && travelled > Threshold(s.config) then Some(s.config) else begun,
                     (motion.0 + dx, motion.1 + dy))
  {
    if begun.Some? {
      SentAppend(calls, Pad(Touchpad.Move(dx, dy)));
    } else if travelled > Threshold(s.config) {
      var begin, move := Pad(Touchpad.Begin(Fingers(s.config))), Pad(Touchpad.Move(s.pendingX + dx, s.pendingY + dy));
      SentAppend([], begin);
      SentAppend([begin], move);
      assert calls + MoveCalls(s, travelled, dx, dy) == [begin] + [move];
      assert [] + [begin] == [begin];
    }
  }

  lemma StartConfigStep(hasClick: bool, c: Config, mids: seq<Input>)
    requires mids != []
    ensures var front := mids[..|mids| - 1];
            var now := ConfigAfter(c, front);
            StartConfig(hasClick, c, mids) ==
            if StartConfig(hasClick, c, front).None? && mids[|mids| - 1].MoveBy? && Travel(mids) > Threshold(now)
            then Some(now) else StartConfig(hasClick, c, front)
  {
    var front := mids[..|mids| - 1];
    var start := Start(hasClick, c, front);
    if start.Some? {
      assert mids[..start.value] == front[..start.value];
    }
  }

  lemma MoveUnderway(hasClick: bool, c: Config, mids: seq<Input>, s: State, calls: seq<Call>)
    requires mids != [] && mids[|mids| - 1].MoveBy?
    requires Underway(hasClick, c, mids[..|mids| - 1], s, calls)
    ensures Underway(hasClick, c, mids, Next(hasClick, s, mids[|mids| - 1]),
                     calls + Calls(hasClick, s, mids[|mids| - 1]))
  {
    var front, e := mids[..|mids| - 1], mids[|mids| - 1];
    StartConfigStep(hasClick, c, mids);
    NextIsAdvance(hasClick, s, e.x, e.y);
    ProgressMove(s, calls, StartConfig(hasClick, c, front), Motion(c, front),
                 Travel(mids), Scaled(s.config, e.x), Scaled(s.config, e.y));
  }

  lemma StepUnderway(hasClick: bool, c: Config, mids: seq<Input>, s: State, calls: seq<Call>)
    requires mids != [] && Between(mids)
    requires Underway(hasClick, c, mids[..|mids| - 1], s, calls)
    ensures Underway(hasClick, c, mids, Next(hasClick, s, mids[|mids| - 1]),
                     calls + Calls(hasClick, s, mids[|mids| - 1]))
  {
    var front, e := mids[..|mids| - 1], mids[|mids| - 1];
    assert e in mids;
    if e.MoveBy? {
      MoveUnderway(hasClick, c, mids, s, calls);
    } else {
      assert calls + [] == calls;
      StartConfigStep(hasClick, c, mids);
    }
  }

  lemma {:induction false} RunStep(hasClick: bool, s: State, run: seq<Input>, e: Input)
    ensures After(hasClick, s, run + [e]) == Next(hasClick, After(hasClick, s, run), e)
    ensures CallsOver(hasClick, s, run + [e]) ==
            CallsOver(hasClick, s, run) + Calls(hasClick, After(hasClick, s, run), e)
  {
    assert (run + [e])[..|run + [e]| - 1] == run;
  }

  lemma {:induction false} PressUnderway(hasClick: bool, s: State)
    ensures Underway(hasClick, s.config, [], Next(hasClick, s, Press), Calls(hasClick, s, Press))
  {
    if !hasClick {
      SentAppend([], Pad(Touchpad.Begin(Fingers(s.config))));
      assert Calls(hasClick, s, Press) == [] + [Pad(Touchpad.Begin(Fingers(s.config)))];
    }
  }

  lemma {:induction false} MidsUnderway(hasClick: bool, s: State, mids: seq<Input>)
    requires Between(mids)
    ensures var run := [Press] + mids;
            Underway(hasClick, s.config, mids, After(hasClick, s, run), CallsOver(hasClick, s, run))
    decreases |mids|
  {
    if mids == [] {
      RunStep(hasClick, s, [], Press);
      assert [] + [Press] == [Press] + mids && [] + Calls(hasClick, s, Press) == Calls(hasClick, s, Press);
      PressUnderway(hasClick, s);
    } else {
      var front, e := mids[..|mids| - 1], mids[|mids| - 1];
      MidsUnderway(hasClick, s, front);
      RunStep(hasClick, s, [Press] + front, e);
      assert ([Press] + front) + [e] == [Press] + mids;
      StepUnderway(hasClick, s.config, mids, After(hasClick, s, [Press] + front), CallsOver(hasClick, s, [Press] + front));
    }
  }

  /** Whatever state a press finds, and whatever the configuration does in between, one press and release
      is exactly one of: a gesture whose moves sum to all the motion, including what was held back before
      the threshold; a single click and nothing else; or no call at all.  The last happens if and only if
      no move went over the threshold of its time and yet the travel exceeds the threshold at release. */
  lemma {:induction false} CycleOutcome(hasClick: bool, s: State, mids: seq<Input>)
    requires Between(mids)
    ensures var calls := CallsOver(hasClick, s, [Press] + mids + [Release]);
            match Start(hasClick, s.config, mids)
            case Some(k) => IsGesture(calls, Fingers(ConfigAfter(s.config, mids[..k])), Motion(s.config, mids))
            case None =>
              if Travel(mids) <= Threshold(ConfigAfter(s.config, mids)) then calls == [ClickPress, ClickRelease]
              else calls == []
    ensures !After(hasClick, s, [Press] + mids + [Release]).pressed
  {
    var run := [Press] + mids;
    var cycle := run + [Release];
    assert cycle[..|cycle| - 1] == run && cycle[|cycle| - 1] == Release;
    MidsUnderway(hasClick, s, mids);
    StartWithoutClick(hasClick, s.config, mids);
    var before := CallsOver(hasClick, s, run);
    var calls := CallsOver(hasClick, s, cycle);
    if Start(hasClick, s.config, mids).Some? {
      assert calls == before + [Pad(Touchpad.End)];
      SentAppend(before, Pad(Touchpad.End));
      assert calls[1..|calls| - 1] == before[1..];
    }
  }

  lemma {:induction false} StartWithoutClick(hasClick: bool, c: Config, mids: seq<Input>)
    ensures Start(hasClick, c, mids).None? ==> hasClick
    decreases |mids|
  {
    if mids == [] {
    } else {
      StartWithoutClick(hasClick, c, mids[..|mids| - 1]);
    }
  }

  lemma {:induction false} FixedConfig(hasClick: bool, c: Config, mids: seq<Input>)
    requires forall e :: e in mids ==> e.MoveBy?
    ensures ConfigAfter(c, mids) == c
    ensures Start(hasClick, c, mids).Some? <==> !hasClick || Travel(mids) > Threshold(c)
    decreases |mids|
  {
    if mids == [] {
    } else {
      assert mids[|mids| - 1] in mids;
      FixedConfig(hasClick, c, mids[..|mids| - 1]);
    }
  }

  /** With the configuration left alone there is no silent cycle: a click happens if and only if one is
      configured and the pointer travelled no further than the threshold, a gesture otherwise. */
  lemma {:induction false} FixedConfigOutcome(hasClick: bool, s: State, moves: seq<Input>)
    requires forall e :: e in moves ==> e.MoveBy?
    ensures var calls := CallsOver(hasClick, s, [Press] + moves + [Release]);
            if hasClick && Travel(moves) <= Threshold(s.config) then calls == [ClickPress, ClickRelease]
            else IsGesture(calls, Fingers(s.config), Motion(s.config, moves))
  {
    CycleOutcome(hasClick, s, moves);
    FixedConfig(hasClick, s.config, moves);
    var start := Start(hasClick, s.config, moves);
    if start.Some? {
      FixedConfig(hasClick, s.config, moves[..start.value]);
    }
  }

  /** A threshold lowered while the button is down can lose the click. */
  lemma {:induction false} LoweredThresholdLosesClick(s: State)
    requires s.config.clickThreshold == None
    ensures var strict := s.config.(clickThreshold := Some(0));
            CallsOver(true, s, [Press] + [MoveBy(3, 0), Configure(strict)] + [Release]) == []
  {
    var strict := s.config.(clickThreshold := Some(0));
    var mids := [MoveBy(3, 0), Configure(strict)];
    CycleOutcome(true, s, mids);
    assert mids[..1] == [MoveBy(3, 0)] && mids[..1][..0] == [];
    assert Start(true, s.config, []) == None && Travel([]) == 0;
    assert mids[..1][0] == MoveBy(3, 0) && Travel(mids[..1]) == 3;
    assert Start(true, s.config, mids[..1]) == None;
    assert mids[1] == Configure(strict) && Travel(mids) == 3;
    assert Start(true, s.config, mids) == None;
  }

  // ---------------------------------------------------------------------------------------------
  // What a gesture does to the contacts
  // ---------------------------------------------------------------------------------------------

  /** The operations asked of the touchpad. */
  function Ops(calls: seq<Call>): seq<Touchpad.Op> {
    if calls == [] then []
    else
      var rest, last := Ops(calls[..|calls| - 1]), calls[|calls| - 1];
      if last.Pad? then rest + [last.op] else rest
  }

  lemma {:induction false} SumAppend(ops: seq<Touchpad.Op>, op: Touchpad.Op)
    ensures var sum := Touchpad.Sum(ops);
            Touchpad.Sum(ops + [op]) == if op.Move? then (sum.0 + op.dx, sum.1 + op.dy) else sum
  {
    assert (ops + [op])[..|ops + [op]| - 1] == ops;
  }

  lemma {:induction false} OpsSum(calls: seq<Call>)
    ensures Touchpad.Sum(Ops(calls)) == Sent(calls)
    decreases |calls|
  {
    if calls == [] {
    } else {
      var front, last := calls[..|calls| - 1], calls[|calls| - 1];
      OpsSum(front);
      if last.Pad? {
        SumAppend(Ops(front), last.op);
      }
    }
  }

  lemma {:induction false} OpsConcat(a: seq<Call>, b: seq<Call>)
    ensures Ops(a + b) == Ops(a) + Ops(b)
    decreases |b|
  {
    if b == [] {
      assert a + b == a;
    } else {
      OpsConcat(a, b[..|b| - 1]);
      assert (a + b)[..|a + b| - 1] == a + b[..|b| - 1];
    }
  }

  lemma {:induction false} SentConcat(a: seq<Call>, b: seq<Call>)
    ensures Sent(a + b) == (Sent(a).0 + Sent(b).0, Sent(a).1 + Sent(b).1)
    decreases |b|
  {
    if b == [] {
      assert a + b == a;
    } else {
      SentConcat(a, b[..|b| - 1]);
      assert (a + b)[..|a + b| - 1] == a + b[..|b| - 1];
    }
  }

  lemma OneCall(call: Call)
    ensures Ops([call]) == if call.Pad? then [call.op] else []
    ensures Sent([call]) == if call.Pad? && call.op.Move? then (call.op.dx, call.op.dy) else (0, 0)
  {
    assert [call][..0] == [];
  }

  /** The touchpad's view of a gesture: begin, moves that sum to the motion, end. */
  lemma {:induction false} GestureOps(calls: seq<Call>, fingers: nat, motion: (int, int))
    requires IsGesture(calls, fingers, motion)
    ensures var moves := Ops(calls[1..|calls| - 1]);
            Ops(calls) == [Touchpad.Begin(fingers)] + moves + [Touchpad.End] && Touchpad.Sum(moves) == motion
  {
    var n := |calls| - 1;
    var mid := calls[1..n];
    assert calls == ([calls[0]] + mid) + [calls[n]];
    OpsConcat([calls[0]] + mid, [calls[n]]);
    OpsConcat([calls[0]], mid);
    SentConcat([calls[0]] + mid, [calls[n]]);
    SentConcat([calls[0]], mid);
    OneCall(calls[0]);
    OneCall(calls[n]);
    OpsSum(mid);
  }

  /** What the receiver shows just before the gesture ends, after any history of the touchpad. */
  function FrameBeforeEnd(prior: seq<Touchpad.Op>, fingers: nat, moves: seq<Touchpad.Op>): Touchpad.Frame {
    Touchpad.Visible(
      Touchpad.Replay(Touchpad.POWER_ON, Touchpad.Trace(prior + ([Touchpad.Begin(fingers)] + moves))))
  }

  /** The touchpad just after the gesture began. */
  function Begun(prior: seq<Touchpad.Op>, fingers: nat): (d: Touchpad.Device)
    ensures Touchpad.Shaped(d)
  {
    Touchpad.Next(Touchpad.After(prior), Touchpad.Begin(fingers))
  }

  /** A gesture, such as CycleOutcome says one press and release makes, seen from the receiver of the
      touchpad's events: if it meets no margin, then just before it ends each contact stands away from where
      it was set down by exactly the whole motion, including what was held back. */
  lemma GestureMovesContacts(calls: seq<Call>, fingers: nat, motion: (int, int), prior: seq<Touchpad.Op>, i: nat)
    requires IsGesture(calls, fingers, motion)
    requires i < Begun(prior, fingers).fingers
    requires Touchpad.AllClear(Begun(prior, fingers), Ops(calls[1..|calls| - 1]))
    ensures var frame := FrameBeforeEnd(prior, fingers, Ops(calls[1..|calls| - 1]));
            var c := Begun(prior, fingers).contacts[i];
            i in frame.contacts && frame.contacts[i] == Touchpad.Contact(c.x + motion.0, c.y + motion.1, c.id)
  {
    GestureOps(calls, fingers, motion);
    Touchpad.GestureIsSeen(prior, fingers, Ops(calls[1..|calls| - 1]), i);
  }
}
