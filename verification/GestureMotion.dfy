/** Gestures of a diverted button (src/logid/actions/GestureAction.cpp): signed pointer motion is split
    over one accumulator for each direction, and releasing the button picks the gesture to act on. */
module GestureMotion {
  import opened Common
  import Settings

  /** Int16 is what a report carries and what a gesture's move takes. */
  type Int16 = i: int | -0x8000 <= i < 0x8000

  const DEFAULT_THRESHOLD := 50

  /** Centre stands for the source's direction None. */
  datatype Direction = Centre | Up | Down | Left | Right

  datatype Kind = OnRelease | OnThreshold | OnInterval | Axis | NoGesture

  /** `counting` is false for an axis gesture without an axis and for an interval gesture without an
      interval: these ignore every move. */
  datatype Gesture = Gesture(kind: Kind, threshold: Option<int>, counting: bool, hasAction: bool, axis: int)

  /** The direction a configuration entry names, in any case. */
  function Named(name: string): Option<Direction> {
    var lower := Settings.Lower(name);
    if lower == "up" then Some(Up)
    else if lower == "down" then Some(Down)
    else if lower == "left" then Some(Left)
    else if lower == "right" then Some(Right)
    else if lower == "none" then Some(Centre)
    else None
  }

  /** The gesture for no direction gets threshold 0. */
  function Prepared(d: Direction, g: Gesture): Gesture {
    if d == Centre then g.(threshold := Some(0)) else g
  }

  /** The gestures made from the configuration: entries that name no direction are skipped. */
  function Configured(entries: seq<(string, Gesture)>): map<Direction, Gesture> {
    if entries == [] then map[]
    else
      var rest, last := Configured(entries[..|entries| - 1]), entries[|entries| - 1];
      match Named(last.0)
      case None => rest
      case Some(d) => if d in rest then rest else rest[d := Prepared(d, last.1)]
  }

  function Truncate(v: int): Int16 {
    (v + 0x8000) % 0x1_0000 - 0x8000
  }

  predicate Fits(v: int) {
    -0x8000 <= v < 0x8000
  }

  predicate Met(g: Gesture) {
    g.axis >= g.threshold.GetOr(DEFAULT_THRESHOLD)
  }

  /** A call of a gesture's move, with its argument before the cast to 16 bits. */
  datatype Push = Push(to: Direction, amount: int)

  function Pushed(gs: map<Direction, Gesture>, p: Push): map<Direction, Gesture> {
    if p.to in gs && gs[p.to].counting
    then gs[p.to := gs[p.to].(axis := gs[p.to].axis + Truncate(p.amount))]
    else gs
  }

  function PushAll(gs: map<Direction, Gesture>, ps: seq<Push>): map<Direction, Gesture> {
    if ps == [] then gs else Pushed(PushAll(gs, ps[..|ps| - 1]), ps[|ps| - 1])
  }

  /** The calls made for a horizontal move by dx from x. */
  function PushesX(x: int, dx: Int16): seq<Push> {
    var x' := x + dx;
    if dx == 0 then []
    else if x < 0 && x' >= 0 then [Push(Left, x)] + if x' != 0 then [Push(Right, x')] else []
    else if x > 0 && x' <= 0 then [Push(Right, -x)] + if x' != 0 then [Push(Left, -x')] else []
    else if x' < 0 then [Push(Left, -(dx as int))]
    else if x' > 0 then [Push(Right, dx)]
    else []
  }

  /** The calls made for a vertical move by dy from y; the crossings differ from the horizontal ones. */
  function PushesY(y: int, dy: Int16): seq<Push> {
    var y' := y + dy;
    if dy == 0 then []
    else if y > 0 && y' <= 0 then [Push(Up, y)] + if y' != 0 then [Push(Down, y')] else []
    else if y < 0 && y' >= 0 then [Push(Down, -y)] + if y' != 0 then [Push(Up, -y')] else []
    else if y' < 0 then [Push(Up, -(dy as int))]
    else if y' > 0 then [Push(Down, dy)]
    else []
  }

  function ToDirection(x: int, y: int): Direction {
    if x >= 0 && y >= 0 then (if x >= y then Right else Down)
    else if x < 0 && y >= 0 then (if -x <= y then Down else Left)
    else if x <= 0 then (if x <= y then Left else Up)
    else if x <= -y then Up
    else Right
  }

  function Released(gs: map<Direction, Gesture>): map<Direction, Gesture> {
    map d | d in gs :: gs[d].(axis := 0)
  }

  const ORDER := [Up, Down, Left, Right]

  /** The first direction in map order, from index i on, that is not d and has met its threshold. */
  function FirstOther(gs: map<Direction, Gesture>, d: Direction, i: nat): (r: Option<Direction>)
    requires i <= |ORDER|
    ensures r.Some? ==> r.value in gs && r.value != d && r.value != Centre && Met(gs[r.value])
    ensures r.None? ==> forall k :: i <= k < |ORDER| && ORDER[k] != d && ORDER[k] in gs ==> !Met(gs[ORDER[k]])
    decreases |ORDER| - i
  {
    if i == |ORDER| then None
    else if ORDER[i] != d && ORDER[i] in gs && Met(gs[ORDER[i]]) then Some(ORDER[i])
    else FirstOther(gs, d, i + 1)
  }

  /** The gesture a release acts on: the dominant direction if it met its threshold, else the first other
      that did, else the one for no direction. */
  function Chosen(gs: map<Direction, Gesture>, x: int, y: int): Option<Direction> {
    var d := ToDirection(x, y);
    if d in gs && Met(gs[d]) then Some(d)
    else if FirstOther(gs, d, 0).Some? then FirstOther(gs, d, 0)
    else if Centre in gs then Some(Centre)
    else None
  }

  /** Gesture::release with its `primary` argument: only an OnRelease gesture acts on it. */
  predicate Fires(g: Gesture, primary: bool) {
    primary && g.kind.OnRelease? && g.hasAction && Met(g)
  }

  function FiredBy(gs: map<Direction, Gesture>, x: int, y: int): seq<Direction> {
    match Chosen(gs, x, y)
    case Some(d) => if d in gs && Fires(gs[d], true) then [d] else []
    case None => []
  }

  /** The action's fields; `fired` records whose actions have been run by a release. */
  class GestureAction {
    var pressed: bool
    var x: int
    var y: int
    var gestures: map<Direction, Gesture>
    var fired: seq<Direction>

    constructor (entries: seq<(string, Gesture)>)
      ensures gestures == Configured(entries) && !pressed && x == y == 0 && fired == []
    {
      pressed, x, y, fired, gestures := false, 0, 0, [], map[];
      new;
      var i := 0;
      while i < |entries|
        invariant i <= |entries| && !pressed && x == y == 0 && fired == []
        invariant gestures == Configured(entries[..i])
      {
        assert entries[..i + 1][..i] == entries[..i];
        var direction := Named(entries[i].0);
        if direction.Some? && direction.value !in gestures {
          var g := entries[i].1;
          if direction.value == Centre {
            g := g.(threshold := Some(0));
          }
          gestures := gestures[direction.value := g];
        }
        i := i + 1;
      }
      assert entries[..|entries|] == entries;
    }

    method OnPress()
      modifies this
      ensures pressed && x == y == 0
      ensures gestures == Released(old(gestures)) && fired == old(fired)
    {
      pressed, x, y := true, 0, 0;
      gestures := map d | d in gestures :: gestures[d].(axis := 0);
    }

    method MoveGesture(d: Direction, amount: int)
      modifies this`gestures
      ensures gestures == Pushed(old(gestures), Push(d, amount))
    {
      if d in gestures && gestures[d].counting {
        var g := gestures[d];
        gestures := gestures[d := g.(axis := g.axis + Truncate(amount))];
      }
    }

    method OnMoveX(dx: Int16)
      modifies this`gestures
      ensures gestures == PushAll(old(gestures), PushesX(x, dx))
    {
      UnfoldPushes(gestures, PushesX(x, dx));
      var newX := x + dx;
      if dx != 0 {
        if x < 0 && newX >= 0 {
          MoveGesture(Left, x);
          if newX != 0 {
            MoveGesture(Right, newX);
          }
        } else if x > 0 && newX <= 0 {
          MoveGesture(Right, -x);
          if newX != 0 {
            MoveGesture(Left, -newX);
          }
        } else if newX < 0 {
          MoveGesture(Left, -(dx as int));
        } else if newX > 0 {
          MoveGesture(Right, dx);
        }
      }
    }

    method OnMoveY(dy: Int16)
      modifies this`gestures
      ensures gestures == PushAll(old(gestures), PushesY(y, dy))
    {
      UnfoldPushes(gestures, PushesY(y, dy));
      var newY := y + dy;
      if dy != 0 {
        if y > 0 && newY <= 0 {
          MoveGesture(Up, y);
          if newY != 0 {
            MoveGesture(Down, newY);
          }
        } else if y < 0 && newY >= 0 {
          MoveGesture(Down, -y);
          if newY != 0 {
            MoveGesture(Up, -newY);
          }
        } else if newY < 0 {
          MoveGesture(Up, -(dy as int));
        } else if newY > 0 {
          MoveGesture(Down, dy);
        }
      }
    }

    method OnMove(dx: Int16, dy: Int16)
      modifies this`x, this`y, this`gestures
      ensures x == old(x) + dx && y == old(y) + dy
      ensures gestures == PushAll(PushAll(old(gestures), PushesX(old(x), dx)), PushesY(old(y), dy))
    {
      OnMoveX(dx);
      OnMoveY(dy);
      x := x + dx;
      y := y + dy;
    }

    method ReleaseGesture(d: Direction, primary: bool)
      requires d in gestures
      modifies this`fired
      ensures fired == old(fired) + if Fires(gestures[d], primary) then [d] else []
    {
      var g := gestures[d];
      if g.kind.OnRelease? && Met(g) && primary && g.hasAction {
        fired := fired + [d];
      }
    }

    method OnRelease()
      modifies this`pressed, this`fired
      ensures !pressed
      ensures fired == old(fired) + FiredBy(gestures, x, y)
    {
      pressed := false;
      var thresholdMet := false;
      var d := ToDirection(x, y);
      if d in gestures {
        thresholdMet := Met(gestures[d]);
        ReleaseGesture(d, true);
      }
      var i := 0;
      ghost var dominant := d in gestures && Met(gestures[d]);
      ghost var done := old(fired) + FiredBy(gestures, x, y);
      while i < |ORDER|
        invariant !pressed && i <= |ORDER|
        invariant if thresholdMet then fired == done else fired == old(fired)
        invariant dominant ==> thresholdMet
        invariant !dominant && thresholdMet ==> FirstOther(gestures, d, 0).Some?
        invariant !dominant && !thresholdMet ==> FirstOther(gestures, d, 0) == FirstOther(gestures, d, i)
      {
        var other := ORDER[i];
        if other != d && other in gestures {
          if !thresholdMet {
            if Met(gestures[other]) {
              thresholdMet := true;
              ReleaseGesture(other, true);
            }
          } else {
            ReleaseGesture(other, false);
          }
        }
        i := i + 1;
      }
      if Centre in gestures {
        ReleaseGesture(Centre, !thresholdMet);
      }
    }
  }

  /** Which texts name which direction: the five words and no others, in any mixture of cases. */
  lemma NamedIs(name: string)
    ensures Named(name) == Some(Up) <==> Settings.SameLetters(name, "up")
    ensures Named(name) == Some(Down) <==> Settings.SameLetters(name, "down")
    ensures Named(name) == Some(Left) <==> Settings.SameLetters(name, "left")
    ensures Named(name) == Some(Right) <==> Settings.SameLetters(name, "right")
    ensures Named(name) == Some(Centre) <==> Settings.SameLetters(name, "none")
  {
    Settings.LowerIgnoresCase(name, "up");
    Settings.LowerIgnoresCase(name, "down");
    Settings.LowerIgnoresCase(name, "left");
    Settings.LowerIgnoresCase(name, "right");
    Settings.LowerIgnoresCase(name, "none");
    assert Settings.Lower("up") == "up" && Settings.Lower("down") == "down" && Settings.Lower("left") == "left";
    assert Settings.Lower("right") == "right" && Settings.Lower("none") == "none";
  }

  /** Entry i is the first that names the direction. */
  predicate IsFirst(entries: seq<(string, Gesture)>, d: Direction, i: int) {
    && 0 <= i < |entries|
    && Named(entries[i].0) == Some(d)
    && forall k :: 0 <= k < i ==> Named(entries[k].0) != Some(d)
  }

  /** A direction has a gesture exactly when some entry names it, and it is the first such entry's, with
      threshold 0 for no direction. */
  lemma {:induction false} ConfiguredIs(entries: seq<(string, Gesture)>, d: Direction)
    ensures d in Configured(entries) <==> exists i :: IsFirst(entries, d, i)
    ensures forall i :: IsFirst(entries, d, i) ==>
              d in Configured(entries) &&
              Configured(entries)[d] == if d == Centre then entries[i].1.(threshold := Some(0)) else entries[i].1
    decreases |entries|
  {
    if entries == [] {
    } else {
      var n := |entries| - 1;
      var front := entries[..n];
      ConfiguredIs(front, d);
      assert forall i :: 0 <= i < n ==> front[i] == entries[i];
      assert forall i :: 0 <= i < n ==> (IsFirst(entries, d, i) <==> IsFirst(front, d, i));
      FirstIfAny(front, d);
      assert IsFirst(entries, d, n) <==> Named(entries[n].0) == Some(d) && d !in Configured(front);
    }
  }

  lemma {:induction false} FirstIfAny(entries: seq<(string, Gesture)>, d: Direction)
    ensures (forall k :: 0 <= k < |entries| ==> Named(entries[k].0) != Some(d)) || exists i :: IsFirst(entries, d, i)
    decreases |entries|
  {
    if entries == [] {
    } else {
      var n := |entries| - 1;
      var front := entries[..n];
      FirstIfAny(front, d);
      if i :| IsFirst(front, d, i) {
        assert IsFirst(entries, d, i);
      } else if Named(entries[n].0) == Some(d) {
        assert forall k :: 0 <= k < n ==> front[k] == entries[k];
        assert IsFirst(entries, d, n);
      }
    }
  }

  lemma {:induction false} UnfoldPushes(gs: map<Direction, Gesture>, ps: seq<Push>)
    requires |ps| <= 2
    ensures PushAll(gs, ps) ==
            if |ps| == 0 then gs
            else if |ps| == 1 then Pushed(gs, ps[0])
            else Pushed(Pushed(gs, ps[0]), ps[1])
  {
    if |ps| == 2 {
      assert ps[..1][..0] == [] && ps[..1][0] == ps[0];
      assert PushAll(gs, ps[..1]) == Pushed(PushAll(gs, []), ps[0]);
    }
  }

  // ---------------------------------------------------------------------------------------------
  // The casts to 16 bits
  // ---------------------------------------------------------------------------------------------

  predicate AllFit(ps: seq<Push>) {
    forall i :: 0 <= i < |ps| ==> Fits(ps[i].amount)
  }

  /** However far the pointer has gone, a horizontal move loses nothing in the cast unless it is by
      -32768 from the origin or its left. */
  lemma CastsExactX(x: int, dx: Int16)
    ensures AllFit(PushesX(x, dx)) <==> !(dx == -0x8000 && x <= 0)
  {
    var ps := PushesX(x, dx);
    if dx == -0x8000 && x <= 0 {
      assert ps == [Push(Left, -(dx as int))];
      assert !Fits(ps[0].amount);
    }
  }

  /** A vertical move also loses when it is by -32768 from exactly 32768. */
  lemma CastsExactY(y: int, dy: Int16)
    ensures AllFit(PushesY(y, dy)) <==> !(dy == -0x8000 && (y <= 0 || y == 0x8000))
  {
    var ps := PushesY(y, dy);
    if dy == -0x8000 && y <= 0 {
      assert ps == [Push(Up, -(dy as int))];
      assert !Fits(ps[0].amount);
    } else if dy == -0x8000 && y == 0x8000 {
      assert ps == [Push(Up, y)];
      assert !Fits(ps[0].amount);
    }
  }

  lemma TruncateExact(v: int)
    ensures Truncate(v) == v <==> Fits(v)
  {
  }

  // ---------------------------------------------------------------------------------------------
  // Conservation of motion
  // ---------------------------------------------------------------------------------------------

  function SumX(moves: seq<(Int16, Int16)>): int {
    if moves == [] then 0 else SumX(moves[..|moves| - 1]) + moves[|moves| - 1].0
  }

  function SumY(moves: seq<(Int16, Int16)>): int {
    if moves == [] then 0 else SumY(moves[..|moves| - 1]) + moves[|moves| - 1].1
  }

  /** The gestures after a press and these moves. */
  function After(gs: map<Direction, Gesture>, moves: seq<(Int16, Int16)>): map<Direction, Gesture> {
    if moves == [] then Released(gs)
    else
      var front, m := moves[..|moves| - 1], moves[|moves| - 1];
      PushAll(PushAll(After(gs, front), PushesX(SumX(front), m.0)), PushesY(SumY(front), m.1))
  }

  /** No cast made during these moves loses anything. */
  predicate Lossless(moves: seq<(Int16, Int16)>) {
    moves == [] ||
    var front, m := moves[..|moves| - 1], moves[|moves| - 1];
    && Lossless(front)
    && !(m.0 == -0x8000 && SumX(front) <= 0)
    && !(m.1 == -0x8000 && (SumY(front) <= 0 || SumY(front) == 0x8000))
  }

  function Pos(v: int): nat {
    if v > 0 then v else 0
  }

  function Magnitude(v: int): nat {
    if v < 0 then -v else v
  }

  predicate Crosses(y: int, y': int) {
    (y > 0 && y' <= 0) || (y < 0 && y' >= 0)
  }

  /** What the vertical crossings leave in both vertical accumulators: at each crossing the distance to
      the origin before it, less the distance after it. */
  function Drift(moves: seq<(Int16, Int16)>): int {
    if moves == [] then 0
    else
      var front := moves[..|moves| - 1];
      var y, y' := SumY(front), SumY(moves);
      Drift(front) + if Crosses(y, y') then Magnitude(y) - Magnitude(y') else 0
  }

  /** How many casts lost something on each axis, one at most in a move. */
  function LostX(moves: seq<(Int16, Int16)>): nat {
    if moves == [] then 0
    else
      var front, m := moves[..|moves| - 1], moves[|moves| - 1];
      LostX(front) + if m.0 == -0x8000 && SumX(front) <= 0 then 1 else 0
  }

  function LostY(moves: seq<(Int16, Int16)>): nat {
    if moves == [] then 0
    else
      var front, m := moves[..|moves| - 1], moves[|moves| - 1];
      LostY(front) + if m.1 == -0x8000 && (SumY(front) <= 0 || SumY(front) == 0x8000) then 1 else 0
  }

  lemma {:induction false} LosslessIs(moves: seq<(Int16, Int16)>)
    ensures Lossless(moves) <==> LostX(moves) == 0 && LostY(moves) == 0
    decreases |moves|
  {
    if moves == [] {
    } else {
      LosslessIs(moves[..|moves| - 1]);
    }
  }

  /** What the accumulator of a direction would hold after these moves if no cast lost anything. */
  function Expected(d: Direction, moves: seq<(Int16, Int16)>): int {
    match d
    case Centre => 0
    case Right => Pos(SumX(moves))
    case Left => Pos(-SumX(moves))
    case Down => Pos(SumY(moves)) + Drift(moves)
    case Up => Pos(-SumY(moves)) + Drift(moves)
  }

  /** What it does hold: each lossy cast, all of them towards Left or Up, takes 65536 from it. */
  function Held(d: Direction, moves: seq<(Int16, Int16)>): int {
    Expected(d, moves) - 0x1_0000 * (match d case Left => LostX(moves) case Up => LostY(moves) case _ => 0)
  }

  /** The total amount that reaches a direction, after the casts. */
  function Total(ps: seq<Push>, d: Direction): int {
    if ps == [] then 0
    else
      var rest, p := Total(ps[..|ps| - 1], d), ps[|ps| - 1];
      if p.to == d then rest + Truncate(p.amount) else rest
  }

  lemma {:induction false} PushAllTotals(gs: map<Direction, Gesture>, ps: seq<Push>, d: Direction)
    requires d in gs
    ensures var gs' := PushAll(gs, ps);
            d in gs' && gs'[d] == if gs[d].counting then gs[d].(axis := gs[d].axis + Total(ps, d)) else gs[d]
    decreases |ps|
  {
    if ps == [] {
    } else {
      PushAllTotals(gs, ps[..|ps| - 1], d);
    }
  }

  lemma {:induction false} TotalOfTwo(ps: seq<Push>, d: Direction)
    requires |ps| <= 2
    ensures Total(ps, d) == (if |ps| >= 1 && ps[0].to == d then Truncate(ps[0].amount) as int else 0) +
                            (if |ps| >= 2 && ps[1].to == d then Truncate(ps[1].amount) as int else 0)
  {
    if |ps| == 1 {
      assert ps[..0] == [];
    } else if |ps| == 2 {
      assert ps[..1][..0] == [] && ps[..1][0] == ps[0];
      assert Total(ps[..1], d) == if ps[0].to == d then Truncate(ps[0].amount) as int else 0;
    }
  }

  lemma {:induction false} TotalX(x: int, dx: Int16, d: Direction)
    ensures Total(PushesX(x, dx), d) ==
            match d
            case Right => Pos(x + dx) - Pos(x)
            case Left => Pos(-x - dx) - Pos(-x) - if dx == -0x8000 && x <= 0 then 0x1_0000 else 0
            case _ => 0
  {
    TotalOfTwo(PushesX(x, dx), d);
  }

  lemma {:induction false} TotalY(y: int, dy: Int16, d: Direction)
    ensures var drift := if Crosses(y, y + dy) then Magnitude(y) - Magnitude(y + dy) else 0;
            Total(PushesY(y, dy), d) ==
            match d
            case Down => Pos(y + dy) - Pos(y) + drift
            case Up =>
              Pos(-y - dy) - Pos(-y) + drift - if dy == -0x8000 && (y <= 0 || y == 0x8000) then 0x1_0000 else 0
            case _ => 0
  {
    TotalOfTwo(PushesY(y, dy), d);
  }

  /** After any run of moves at all every counting gesture holds exactly this, whichever other directions
      are configured; one that does not count holds 0. */
  lemma {:induction false} MotionConserved(gs: map<Direction, Gesture>, moves: seq<(Int16, Int16)>, d: Direction)
    requires d in gs
    ensures d in After(gs, moves)
    ensures After(gs, moves)[d] == gs[d].(axis := if gs[d].counting then Held(d, moves) else 0)
    decreases |moves|
  {
    if moves == [] {
    } else {
      var front, m := moves[..|moves| - 1], moves[|moves| - 1];
      MotionConserved(gs, front, d);
      var before := After(gs, front);
      var ps, qs := PushesX(SumX(front), m.0), PushesY(SumY(front), m.1);
      PushAllTotals(before, ps, d);
      PushAllTotals(PushAll(before, ps), qs, d);
      HeldStep(moves, d);
    }
  }

  lemma {:induction false} HeldStep(moves: seq<(Int16, Int16)>, d: Direction)
    requires moves != []
    ensures var front, m := moves[..|moves| - 1], moves[|moves| - 1];
            Held(d, moves) == Held(d, front) + Total(PushesX(SumX(front), m.0), d) + Total(PushesY(SumY(front), m.1), d)
  {
    var front, m := moves[..|moves| - 1], moves[|moves| - 1];
    TotalX(SumX(front), m.0, d);
    TotalY(SumY(front), m.1, d);
  }

  lemma {:induction false} SmallMovesAreLossless(moves: seq<(Int16, Int16)>)
    requires forall m :: m in moves ==> m.0 > -0x8000 && m.1 > -0x8000
    ensures Lossless(moves)
    decreases |moves|
  {
    if moves == [] {
    } else {
      assert moves[|moves| - 1] in moves;
      SmallMovesAreLossless(moves[..|moves| - 1]);
    }
  }

  /** On X each accumulator is its own part of the net motion without cancellation, except that each lossy
      cast takes 65536 from Left. */
  lemma {:induction false} NetMotionX(gs: map<Direction, Gesture>, moves: seq<(Int16, Int16)>)
    requires Left in gs && gs[Left].counting && Right in gs && gs[Right].counting
    ensures var t := After(gs, moves);
            && Left in t && Right in t
            && t[Right].axis == Pos(SumX(moves))
            && t[Left].axis == Pos(-SumX(moves)) - 0x1_0000 * LostX(moves)
  {
    MotionConserved(gs, moves, Left);
    MotionConserved(gs, moves, Right);
  }

  /** On Y the drift comes in addition: down is its own part of the motion if and only if there is none. */
  lemma {:induction false} NetMotionY(gs: map<Direction, Gesture>, moves: seq<(Int16, Int16)>)
    requires Up in gs && gs[Up].counting && Down in gs && gs[Down].counting
    ensures var t := After(gs, moves);
            && Up in t && Down in t
            && t[Down].axis - t[Up].axis == SumY(moves) + 0x1_0000 * LostY(moves)
            && (t[Down].axis == Pos(SumY(moves)) <==> Drift(moves) == 0)
            && (t[Up].axis == Pos(-SumY(moves)) <==> Drift(moves) == 0x1_0000 * LostY(moves))
  {
    MotionConserved(gs, moves, Up);
    MotionConserved(gs, moves, Down);
  }

  /** Exact condition: with all four directions counting the accumulators give back the net motion if and
      only if no cast lost anything. */
  lemma {:induction false} NetMotion(gs: map<Direction, Gesture>, moves: seq<(Int16, Int16)>)
    requires forall d :: d in ORDER ==> d in gs && gs[d].counting
    ensures forall d :: d in ORDER ==> d in After(gs, moves)
    ensures var t := After(gs, moves);
            t[Right].axis - t[Left].axis == SumX(moves) && t[Down].axis - t[Up].axis == SumY(moves)
            <==> Lossless(moves)
  {
    LosslessIs(moves);
    assert ORDER[0] == Up && ORDER[1] == Down && ORDER[2] == Left && ORDER[3] == Right;
    assert Up in ORDER && Down in ORDER && Left in ORDER && Right in ORDER;
    NetMotionX(gs, moves);
    NetMotionY(gs, moves);
  }

  /** The strong form is false on Y: ten down, then twenty-five up, ends with 15 net up but 10 - 15 = -5
      in the down accumulator, where the same motion on X leaves 0. */
  lemma {:induction false} DriftExample(gs: map<Direction, Gesture>)
    requires forall d :: d in ORDER ==> d in gs && gs[d].counting
    ensures var t := After(gs, [(-10, 10), (25, -25)]);
            && forall d :: d in ORDER ==> d in t
    ensures var t := After(gs, [(-10, 10), (25, -25)]);
            && t[Up].axis == 10 && t[Down].axis == -5
            && t[Right].axis == 15 && t[Left].axis == 0
  {
    var m0: (Int16, Int16) := (-10, 10);
    var m1: (Int16, Int16) := (25, -25);
    var moves := [m0, m1];
    assert moves[..1] == [m0] && [m0][..0] == [];
    assert SumY([m0]) == 10 && SumX([m0]) == -10 && Drift([m0]) == 0;
    assert SumY(moves) == -15 && SumX(moves) == 15 && Drift(moves) == -5;
    SmallMovesAreLossless(moves);
    LosslessIs(moves);
    assert ORDER[0] == Up && ORDER[1] == Down && ORDER[2] == Left && ORDER[3] == Right;
    assert Up in ORDER && Down in ORDER && Left in ORDER && Right in ORDER;
    MotionConserved(gs, moves, Up);
    MotionConserved(gs, moves, Down);
    NetMotionX(gs, moves);
  }

  /** A single move by -32768 from the origin counts against the left gesture. */
  lemma {:induction false} WrapExample(gs: map<Direction, Gesture>)
    requires Left in gs && gs[Left].counting
    ensures Left in After(gs, [(-0x8000, 0)]) && After(gs, [(-0x8000, 0)])[Left].axis == -0x8000
  {
    var m: (Int16, Int16) := (-0x8000, 0);
    assert [m][..0] == [];
    assert SumX([m]) == -0x8000 && LostX([m]) == 1;
    MotionConserved(gs, [m], Left);
  }

  // ---------------------------------------------------------------------------------------------
  // What a release acts on
  // ---------------------------------------------------------------------------------------------

  function Extent(d: Direction, x: int, y: int): nat {
    match d
    case Centre => 0
    case Up => Pos(-y)
    case Down => Pos(y)
    case Left => Pos(-x)
    case Right => Pos(x)
  }

  /** The dominant direction is one in which the pointer went furthest. */
  lemma DominantIsFurthest(x: int, y: int, d: Direction)
    ensures ToDirection(x, y) != Centre && Extent(d, x, y) <= Extent(ToDirection(x, y), x, y)
  {
  }

  /** Ties are settled alike in all four quarters: turning the motion by a quarter turns the result. */
  lemma DirectionTurns(x: int, y: int)
    requires x != 0 || y != 0
    ensures ToDirection(-y, x) == match ToDirection(x, y)
                                  case Right => Down
                                  case Down => Left
                                  case Left => Up
                                  case Up => Right
                                  case Centre => Centre
    ensures ToDirection(x, y) == Right <==> x >= y && x > -y
    ensures ToDirection(0, 0) == Right
  {
  }

  lemma {:induction false} PushAllKeys(gs: map<Direction, Gesture>, ps: seq<Push>)
    ensures PushAll(gs, ps).Keys == gs.Keys
    decreases |ps|
  {
    if ps == [] {
    } else {
      PushAllKeys(gs, ps[..|ps| - 1]);
    }
  }

  lemma {:induction false} AfterKeys(gs: map<Direction, Gesture>, moves: seq<(Int16, Int16)>)
    ensures After(gs, moves).Keys == gs.Keys
    decreases |moves|
  {
    if moves == [] {
    } else {
      var front, m := moves[..|moves| - 1], moves[|moves| - 1];
      AfterKeys(gs, front);
      PushAllKeys(After(gs, front), PushesX(SumX(front), m.0));
      PushAllKeys(PushAll(After(gs, front), PushesX(SumX(front), m.0)), PushesY(SumY(front), m.1));
    }
  }

  /** Whether these moves take a direction to its threshold. */
  predicate Reached(gs: map<Direction, Gesture>, moves: seq<(Int16, Int16)>, d: Direction) {
    && d in gs
    && d != Centre
    && (if gs[d].counting then Held(d, moves) else 0) >= gs[d].threshold.GetOr(DEFAULT_THRESHOLD)
  }

  /** Whether a release acts on this direction: the dominant one if it was reached; otherwise the first
      other one reached, in map order; otherwise the gesture for no direction, if there is one. */
  predicate Selected(gs: map<Direction, Gesture>, moves: seq<(Int16, Int16)>, d: Direction) {
    var main := ToDirection(SumX(moves), SumY(moves));
    if d == main then Reached(gs, moves, d)
    else if d == Centre then Centre in gs && forall q :: !Reached(gs, moves, q)
    else
      && Reached(gs, moves, d)
      && !Reached(gs, moves, main)
      && forall q :: q != main && Place(q) < Place(d) ==> !Reached(gs, moves, q)
  }

  function Place(d: Direction): nat {
    match d
    case Centre => 0
    case Up => 1
    case Down => 2
    case Left => 3
    case Right => 4
  }

  lemma {:induction false} ReachedIsMet(gs: map<Direction, Gesture>, moves: seq<(Int16, Int16)>, d: Direction)
    requires Centre in gs ==> gs[Centre].threshold == Some(0)
    ensures var t := After(gs, moves);
            && (d in t <==> d in gs)
            && (Reached(gs, moves, d) <==> MetIn(t, d))
            && (d in t ==> t[d].kind == gs[d].kind && t[d].hasAction == gs[d].hasAction && (d == Centre ==> Met(t[d])))
  {
    AfterKeys(gs, moves);
    assert d in After(gs, moves).Keys <==> d in gs.Keys;
    if d in gs {
      MotionConserved(gs, moves, d);
    }
  }

  lemma {:induction false} FirstOtherIs(gs: map<Direction, Gesture>, d: Direction, i: nat, r: Direction)
    requires i <= |ORDER|
    ensures FirstOther(gs, d, i) == Some(r) <==>
            && r != Centre && r != d && Place(r) > i && r in gs && Met(gs[r])
            && (forall q :: q in gs && q != d && i < Place(q) < Place(r) ==> !Met(gs[q]))
    decreases |ORDER| - i
  {
    if i < |ORDER| {
      assert Place(ORDER[i]) == i + 1;
      assert forall q :: Place(q) == i + 1 ==> q == ORDER[i];
      FirstOtherIs(gs, d, i + 1, r);
    }
  }

  predicate MetIn(t: map<Direction, Gesture>, d: Direction) {
    d in t && d != Centre && Met(t[d])
  }

  lemma ChosenIs(t: map<Direction, Gesture>, x: int, y: int, d: Direction)
    ensures var main := ToDirection(x, y);
            Chosen(t, x, y) == Some(d) <==>
            if d == main then MetIn(t, d)
            else if d == Centre then Centre in t && forall q :: !MetIn(t, q)
            else MetIn(t, d) && !MetIn(t, main) && forall q :: q != main && Place(q) < Place(d) ==> !MetIn(t, q)
  {
    var main := ToDirection(x, y);
    var first := FirstOther(t, main, 0);
    assert main != Centre;
    assert MetIn(t, main) <==> main in t && Met(t[main]);
    if first.None? {
      assert ORDER[0] == Up && ORDER[1] == Down && ORDER[2] == Left && ORDER[3] == Right;
      assert forall q :: q != main ==> !MetIn(t, q);
    } else {
      assert MetIn(t, first.value);
    }
    if d == main {
    } else if d == Centre {
      if MetIn(t, main) {
        assert Chosen(t, x, y) == Some(main);
      }
    } else {
      FirstOtherIs(t, main, 0, d);
      var before := forall q :: q != main && Place(q) < Place(d) ==> !MetIn(t, q);
      if before {
        assert forall q :: q in t && q != main && 0 < Place(q) < Place(d) ==> !MetIn(t, q);
      } else {
        var q :| q != main && Place(q) < Place(d) && MetIn(t, q);
        assert 0 < Place(q);
      }
    }
  }

  lemma {:induction false} SelectedIsChosen(gs: map<Direction, Gesture>, moves: seq<(Int16, Int16)>, d: Direction)
    requires Centre in gs ==> gs[Centre].threshold == Some(0)
    ensures Chosen(After(gs, moves), SumX(moves), SumY(moves)) == Some(d) <==> Selected(gs, moves, d)
  {
    forall q: Direction
      ensures Reached(gs, moves, q) <==> MetIn(After(gs, moves), q)
      ensures q in After(gs, moves) <==> q in gs
    {
      ReachedIsMet(gs, moves, q);
    }
    ChosenIs(After(gs, moves), SumX(moves), SumY(moves), d);
  }

  /** Pressing, any moves, and releasing, with gestures of any kinds: at most one direction is selected,
      exactly one when there is a gesture for no direction; its action is run if it acts on release, and
      no other action is.  The gesture for no direction has threshold 0, as the constructor sets it. */
  lemma {:induction false} ReleaseFiresOne(gs: map<Direction, Gesture>, moves: seq<(Int16, Int16)>)
    requires Centre in gs ==> gs[Centre].threshold == Some(0)
    ensures forall d, e :: Selected(gs, moves, d) && Selected(gs, moves, e) ==> d == e
    ensures Centre in gs ==> exists d :: Selected(gs, moves, d)
    ensures var fired := FiredBy(After(gs, moves), SumX(moves), SumY(moves));
            && |fired| <= 1
            && forall d :: fired == [d] <==>
                 d in gs && Selected(gs, moves, d) && gs[d].kind.OnRelease? && gs[d].hasAction
  {
    var t, x, y := After(gs, moves), SumX(moves), SumY(moves);
    forall d: Direction
      ensures Chosen(t, x, y) == Some(d) <==> Selected(gs, moves, d)
    {
      SelectedIsChosen(gs, moves, d);
    }
    var chosen := Chosen(t, x, y);
    if chosen.Some? {
      assert Selected(gs, moves, chosen.value);
      ReachedIsMet(gs, moves, chosen.value);
    }
    ReachedIsMet(gs, moves, Centre);
    forall d: Direction
      ensures FiredBy(t, x, y) == [d] <==>
              d in gs && Selected(gs, moves, d) && gs[d].kind.OnRelease? && gs[d].hasAction
    {
      if FiredBy(t, x, y) == [d] {
        assert [d][0] == d;
      }
    }
  }
}
