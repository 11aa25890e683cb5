/** The virtual touchpad (src/logid/TouchpadDevice.cpp) and a receiver of its event stream.

    The device writes multi-touch events; a receiver decodes them back into contacts by the slot
    protocol of the Linux kernel document "Multi-touch (MT) Protocol", section "Protocol Example B".
    What the receiver shows at every SYN_REPORT is compared with the state of the device. */
module Touchpad {
  const MIN_FINGERS := 3
  const MAX_FINGERS := 4
  const MAX_CONTACTS := 4
  const WIDTH := 16000
  const HEIGHT := 10000
  const MARGIN := 100
  const SPACING := 800

  datatype Key = BtnLeft | BtnTouch | ToolFinger | ToolTripleTap | ToolQuadTap

  datatype Event =
    | MtSlot(slot: int)
    | MtTrackingId(id: int)
    | MtPositionX(x: int)
    | MtPositionY(y: int)
    | AbsX(x: int)
    | AbsY(y: int)
    | KeyEvent(key: Key, down: bool)
    | SynReport

  datatype Contact = Contact(x: int, y: int, id: int)

  // ---------------------------------------------------------------------------------------------
  // The receiver
  // ---------------------------------------------------------------------------------------------

  /** A type B decoder: events change the current slot; tracking id -1 empties it. */
  datatype Decoder = Decoder(slot: int, slots: seq<Contact>, x: int, y: int, keys: set<Key>)

  const EMPTY_SLOT := Contact(0, 0, -1)
  const POWER_ON := Decoder(0, [EMPTY_SLOT, EMPTY_SLOT, EMPTY_SLOT, EMPTY_SLOT], 0, 0, {})

  predicate Sane(d: Decoder) {
    |d.slots| == MAX_CONTACTS && 0 <= d.slot < MAX_CONTACTS
  }

  function Feed(d: Decoder, e: Event): (r: Decoder)
    requires Sane(d)
    ensures Sane(r)
  {
    match e
    case MtSlot(i) => if 0 <= i < |d.slots| then d.(slot := i) else d
    case MtTrackingId(id) => d.(slots := d.slots[d.slot := d.slots[d.slot].(id := id)])
    case MtPositionX(x) => d.(slots := d.slots[d.slot := d.slots[d.slot].(x := x)])
    case MtPositionY(y) => d.(slots := d.slots[d.slot := d.slots[d.slot].(y := y)])
    case AbsX(x) => d.(x := x)
    case AbsY(y) => d.(y := y)
    case KeyEvent(key, down) => d.(keys := if down then d.keys + {key} else d.keys - {key})
    case SynReport => d
  }

  function Replay(d: Decoder, es: seq<Event>): (r: Decoder)
    requires Sane(d)
    ensures Sane(r)
  {
    if es == [] then d else Feed(Replay(d, es[..|es| - 1]), es[|es| - 1])
  }

  /** What a receiver acts on: the contacts in touch by slot, the keys down, the pointer. */
  datatype Frame = Frame(contacts: map<int, Contact>, keys: set<Key>, x: int, y: int)

  function Visible(d: Decoder): Frame {
    Frame(map i | 0 <= i < |d.slots| && d.slots[i].id != -1 :: d.slots[i], d.keys, d.x, d.y)
  }

  /** The frames a receiver sees: one for every SYN_REPORT. */
  function Frames(d: Decoder, es: seq<Event>): seq<Frame>
    requires Sane(d)
  {
    if es == [] then []
    else
      var before := Frames(d, es[..|es| - 1]);
      if es[|es| - 1].SynReport? then before + [Visible(Replay(d, es))] else before
  }

  lemma {:induction false} ReplayConcat(d: Decoder, a: seq<Event>, b: seq<Event>)
    requires Sane(d)
    ensures Replay(d, a + b) == Replay(Replay(d, a), b)
    ensures Frames(d, a + b) == Frames(d, a) + Frames(Replay(d, a), b)
    decreases |b|
  {
    if b == [] {
      assert a + b == a;
    } else {
      var b' := b[..|b| - 1];
      ReplayConcat(d, a, b');
      assert (a + b)[..|a + b| - 1] == a + b';
    }
  }

  // ---------------------------------------------------------------------------------------------
  // The device
  // ---------------------------------------------------------------------------------------------

  datatype Device = Device(active: bool, fingers: nat, nextId: int, contacts: seq<Contact>)

  const INIT := Device(false, 0, 1, [Contact(0, 0, 0), Contact(0, 0, 0), Contact(0, 0, 0), Contact(0, 0, 0)])

  datatype Op = Begin(fingers: nat) | Move(dx: int, dy: int) | End

  function Clamp(v: int, lo: int, hi: int): int {
    if v < lo then lo else if hi < v then hi else v
  }

  function ToolCode(fingers: nat): Key {
    if fingers == 3 then ToolTripleTap else if fingers == 4 then ToolQuadTap else ToolFinger
  }

  function StartX(fingers: nat): int {
    WIDTH / 2 - (fingers - 1) * SPACING / 2
  }

  function Fresh(fingers: nat, i: nat, nextId: int): Contact {
    Contact(StartX(fingers) + i * SPACING, HEIGHT / 2, nextId + i)
  }

  function Moved(c: Contact, dx: int, dy: int): Contact {
    Contact(Clamp(c.x + dx, MARGIN, WIDTH - MARGIN), Clamp(c.y + dy, MARGIN, HEIGHT - MARGIN), c.id)
  }

  /** The first n contacts set down anew. */
  function Reset(cs: seq<Contact>, fingers: nat, n: nat, nextId: int): (r: seq<Contact>)
    requires n <= |cs|
    ensures |r| == |cs|
  {
    if n == 0 then cs else Reset(cs, fingers, n - 1, nextId)[n - 1 := Fresh(fingers, n - 1, nextId)]
  }

  /** The first n contacts moved. */
  function MoveAll(cs: seq<Contact>, n: nat, dx: int, dy: int): (r: seq<Contact>)
    requires n <= |cs|
    ensures |r| == |cs|
  {
    if n == 0 then cs else MoveAll(cs, n - 1, dx, dy)[n - 1 := Moved(cs[n - 1], dx, dy)]
  }

  predicate Shaped(s: Device) {
    |s.contacts| == MAX_CONTACTS && s.fingers <= MAX_CONTACTS
  }

  function Ended(s: Device): Device {
    s.(active := false, fingers := 0)
  }

  function Begun(s: Device, fingers: nat): Device
    requires Shaped(s)
  {
    var n := Clamp(fingers, MIN_FINGERS, MAX_FINGERS);
    Device(true, n, s.nextId + n, Reset(s.contacts, n, n, s.nextId))
  }

  function Next(s: Device, op: Op): (r: Device)
    requires Shaped(s)
    ensures Shaped(r)
  {
    match op
    case Begin(fingers) => Begun(s, fingers)
    case Move(dx, dy) => if s.active then s.(contacts := MoveAll(s.contacts, s.fingers, dx, dy)) else s
    case End => if s.active then Ended(s) else s
  }

  function ContactEvents(cs: seq<Contact>, n: nat): seq<Event>
    requires n <= |cs|
  {
    if n == 0 then []
    else ContactEvents(cs, n - 1) +
         [MtSlot(n - 1), MtTrackingId(cs[n - 1].id), MtPositionX(cs[n - 1].x), MtPositionY(cs[n - 1].y)]
  }

  function LiftEvents(n: nat): seq<Event> {
    if n == 0 then [] else LiftEvents(n - 1) + [MtSlot(n - 1), MtTrackingId(-1)]
  }

  function WriteEvents(s: Device): seq<Event>
    requires Shaped(s)
  {
    ContactEvents(s.contacts, s.fingers) + [AbsX(s.contacts[0].x), AbsY(s.contacts[0].y)]
  }

  function EndEvents(s: Device): seq<Event> {
    LiftEvents(s.fingers) +
    [KeyEvent(ToolCode(s.fingers), false), KeyEvent(BtnTouch, false), KeyEvent(BtnLeft, false), SynReport]
  }

  function BeginEvents(s: Device, fingers: nat): seq<Event>
    requires Shaped(s)
  {
    var t := Begun(s, fingers);
    WriteEvents(t) + [KeyEvent(ToolCode(t.fingers), true), KeyEvent(BtnTouch, true), SynReport]
  }

  function Emitted(s: Device, op: Op): seq<Event>
    requires Shaped(s)
  {
    match op
    case Begin(fingers) => (if s.active then EndEvents(s) else []) + BeginEvents(s, fingers)
    case Move(dx, dy) => if s.active then WriteEvents(Next(s, op)) + [SynReport] else []
    case End => if s.active then EndEvents(s) else []
  }

  lemma AppendThree(a: seq<Event>, b: seq<Event>, c: seq<Event>, x: Event, y: Event, z: Event)
    ensures (((a + b) + c) + [x]) + [y] + [z] == a + (b + (c + [x, y, z]))
  {
  }

  /** The device as the source keeps it; `trace` is what it has written to uinput.  Every public
      method runs under one mutex. */
  class TouchpadDevice {
    var active: bool
    var fingers: nat
    var nextId: int
    const contacts: array<Contact>
    var trace: seq<Event>

    ghost predicate Valid()
      reads this
    {
      contacts.Length == MAX_CONTACTS && fingers <= MAX_CONTACTS
    }

    ghost function View(): Device
      reads this, contacts
    {
      Device(active, fingers, nextId, contacts[..])
    }

    constructor ()
      ensures Valid() && View() == INIT && trace == [] && fresh(contacts)
    {
      active, fingers, nextId, trace := false, 0, 1, [];
      contacts := new Contact[MAX_CONTACTS](_ => Contact(0, 0, 0));
      new;
      assert contacts[..] == INIT.contacts;
    }

    method BeginGesture(wanted: nat)
      requires Valid()
      modifies this, contacts
      ensures Valid()
      ensures View() == Next(old(View()), Begin(wanted))
      ensures trace == old(trace) + Emitted(old(View()), Begin(wanted))
    {
      var n := Clamp(wanted, MIN_FINGERS, MAX_FINGERS);
      ghost var lifted := if active then EndEvents(View()) else [];
      ghost var begun := Begun(View(), wanted);
      if active {
        EndGestureUnlocked();
      }
      assert trace == old(trace) + lifted;
      active := true;
      fingers := n;
      ResetContacts(n);
      assert View() == begun;
      WriteContacts();
      trace := trace + [KeyEvent(ToolCode(fingers), true)];
      trace := trace + [KeyEvent(BtnTouch, true)];
      trace := trace + [SynReport];
      AppendThree(old(trace), lifted, WriteEvents(begun), KeyEvent(ToolCode(n), true), KeyEvent(BtnTouch, true), SynReport);
    }

    method MoveGesture(dx: int, dy: int)
      requires Valid()
      modifies this, contacts
      ensures Valid()
      ensures View() == Next(old(View()), Move(dx, dy))
      ensures trace == old(trace) + Emitted(old(View()), Move(dx, dy))
    {
      if !active {
        return;
      }
      var i := 0;
      while i < fingers
        invariant View() == old(View()).(contacts := contacts[..]) && trace == old(trace)
        invariant i <= fingers
        invariant contacts[..] == MoveAll(old(contacts[..]), i, dx, dy)
        invariant forall k :: i <= k < contacts.Length ==> contacts[k] == old(contacts[k])
      {
        contacts[i] := Contact(
          Clamp(contacts[i].x + dx, MARGIN, WIDTH - MARGIN),
          Clamp(contacts[i].y + dy, MARGIN, HEIGHT - MARGIN),
          contacts[i].id);
        i := i + 1;
      }
      WriteContacts();
      trace := trace + [SynReport];
    }

    method EndGesture()
      requires Valid()
      modifies this
      ensures Valid()
      ensures View() == Next(old(View()), End)
      ensures trace == old(trace) + Emitted(old(View()), End)
    {
      if !active {
        return;
      }
      EndGestureUnlocked();
    }

    method EndGestureUnlocked()
      requires Valid()
      modifies this
      ensures Valid()
      ensures View() == Ended(old(View()))
      ensures trace == old(trace) + EndEvents(old(View()))
    {
      var i := 0;
      while i < fingers
        invariant i <= fingers && View() == old(View())
        invariant trace == old(trace) + LiftEvents(i)
      {
        trace := trace + [MtSlot(i)];
        trace := trace + [MtTrackingId(-1)];
        i := i + 1;
      }
      trace := trace + [KeyEvent(ToolCode(fingers), false)];
      trace := trace + [KeyEvent(BtnTouch, false)];
      trace := trace + [KeyEvent(BtnLeft, false)];
      trace := trace + [SynReport];
      active := false;
      fingers := 0;
    }

    method ResetContacts(n: nat)
      requires Valid() && n <= MAX_CONTACTS
      modifies this`nextId, contacts
      ensures View() == old(View()).(nextId := old(nextId) + n, contacts := Reset(old(contacts[..]), n, n, old(nextId)))
    {
      var startX := WIDTH / 2 - (n - 1) * SPACING / 2;
      var i := 0;
      while i < n
        invariant i <= n && nextId == old(nextId) + i
        invariant contacts[..] == Reset(old(contacts[..]), n, i, old(nextId))
      {
        contacts[i] := Contact(startX + i * SPACING, HEIGHT / 2, nextId);
        nextId := nextId + 1;
        i := i + 1;
      }
    }

    method WriteContacts()
      requires Valid()
      modifies this`trace
      ensures trace == old(trace) + WriteEvents(View())
    {
      var i := 0;
      while i < fingers
        invariant i <= fingers
        invariant trace == old(trace) + ContactEvents(contacts[..], i)
      {
        trace := trace + [MtSlot(i)];
        trace := trace + [MtTrackingId(contacts[i].id)];
        trace := trace + [MtPositionX(contacts[i].x)];
        trace := trace + [MtPositionY(contacts[i].y)];
        i := i + 1;
      }
      trace := trace + [AbsX(contacts[0].x)];
      trace := trace + [AbsY(contacts[0].y)];
    }
  }

  // ---------------------------------------------------------------------------------------------
  // What every operation keeps
  // ---------------------------------------------------------------------------------------------

  predicate Inside(c: Contact, nextId: int) {
    && 1 <= c.id < nextId
    && MARGIN <= c.x <= WIDTH - MARGIN
    && MARGIN <= c.y <= HEIGHT - MARGIN
  }

  /** Right of its left neighbour by at most the initial spacing, level with it, and newer. */
  predicate Beside(left: Contact, right: Contact) {
    0 <= right.x - left.x <= SPACING && left.y == right.y && left.id < right.id
  }

  predicate Inv(s: Device) {
    && Shaped(s)
    && s.nextId >= 1
    && (if s.active then MIN_FINGERS <= s.fingers <= MAX_FINGERS else s.fingers == 0)
    && (forall i :: 0 <= i < s.fingers ==> Inside(s.contacts[i], s.nextId))
    && (forall i, j :: 0 <= i < s.fingers && 0 <= j < s.fingers && j == i + 1 ==> Beside(s.contacts[i], s.contacts[j]))
  }

  lemma {:induction false} ResetAt(cs: seq<Contact>, fingers: nat, n: nat, nextId: int, i: nat)
    requires n <= |cs| && i < |cs|
    ensures Reset(cs, fingers, n, nextId)[i] == if i < n then Fresh(fingers, i, nextId) else cs[i]
    decreases n
  {
    if n == 0 {
    } else {
      ResetAt(cs, fingers, n - 1, nextId, i);
    }
  }

  lemma {:induction false} MoveAllAt(cs: seq<Contact>, n: nat, dx: int, dy: int, i: nat)
    requires n <= |cs| && i < |cs|
    ensures MoveAll(cs, n, dx, dy)[i] == if i < n then Moved(cs[i], dx, dy) else cs[i]
    decreases n
  {
    if n == 0 {
    } else {
      MoveAllAt(cs, n - 1, dx, dy, i);
    }
  }

  /** Clamping both neighbours may close the gap between them but never widens or crosses it. */
  lemma MovedBeside(a: Contact, b: Contact, dx: int, dy: int)
    requires Beside(a, b)
    ensures Beside(Moved(a, dx, dy), Moved(b, dx, dy))
  {
  }

  lemma BegunKeepsInv(s: Device, fingers: nat)
    requires Inv(s)
    ensures Inv(Begun(s, fingers))
    ensures forall i :: 0 <= i < Begun(s, fingers).fingers ==> Begun(s, fingers).contacts[i].id == s.nextId + i
  {
    var t := Begun(s, fingers);
    forall i: nat | i < t.fingers
      ensures t.contacts[i] == Fresh(t.fingers, i, s.nextId)
    {
      ResetAt(s.contacts, t.fingers, t.fingers, s.nextId, i);
    }
  }

  lemma StepKeepsInv(s: Device, op: Op)
    requires Inv(s)
    ensures Inv(Next(s, op))
  {
    match op
    case Begin(fingers) =>
      BegunKeepsInv(s, fingers);
    case Move(dx, dy) =>
      if s.active {
        var t := Next(s, op);
        forall i: nat | i < s.fingers
          ensures t.contacts[i] == Moved(s.contacts[i], dx, dy)
        {
          MoveAllAt(s.contacts, s.fingers, dx, dy, i);
        }
        forall i, j | 0 <= i < j < t.fingers && j == i + 1
          ensures Beside(t.contacts[i], t.contacts[j])
        {
          MovedBeside(s.contacts[i], s.contacts[j], dx, dy);
        }
      }
    case End =>
  }

  // ---------------------------------------------------------------------------------------------
  // The stream shows the device
  // ---------------------------------------------------------------------------------------------

  /** The frame that a receiver should be looking at while the device is in state s. */
  function Shown(s: Device): Frame
    requires Shaped(s)
  {
    Frame(
      map i | 0 <= i < s.fingers :: s.contacts[i],
      if s.active then {BtnTouch, ToolCode(s.fingers)} else {},
      s.contacts[0].x,
      s.contacts[0].y)
  }

  /** The frames one operation should produce; a gesture begun during another lifts it first. */
  function ShownBy(s: Device, op: Op): seq<Frame>
    requires Shaped(s)
  {
    match op
    case Begin(_) => (if s.active then [Shown(Ended(s))] else []) + [Shown(Next(s, op))]
    case Move(_, _) => if s.active then [Shown(Next(s, op))] else []
    case End => if s.active then [Shown(Next(s, op))] else []
  }

  lemma {:induction false} ReplayContact(d: Decoder, i: nat, c: Contact)
    requires Sane(d) && i < MAX_CONTACTS
    ensures var es := [MtSlot(i), MtTrackingId(c.id), MtPositionX(c.x), MtPositionY(c.y)];
            Replay(d, es) == d.(slot := i, slots := d.slots[i := c]) && Frames(d, es) == []
  {
    ReplayFour(d, MtSlot(i), MtTrackingId(c.id), MtPositionX(c.x), MtPositionY(c.y));
  }

  lemma {:induction false} ReplayContacts(d: Decoder, cs: seq<Contact>, n: nat)
    requires Sane(d) && |cs| == MAX_CONTACTS && n <= MAX_CONTACTS
    ensures var r := Replay(d, ContactEvents(cs, n));
            && r == d.(slot := r.slot, slots := r.slots)
            && forall i :: 0 <= i < MAX_CONTACTS ==> r.slots[i] == if i < n then cs[i] else d.slots[i]
    ensures Frames(d, ContactEvents(cs, n)) == []
    decreases n
  {
    if n == 0 {
    } else {
      ReplayContacts(d, cs, n - 1);
      var before := ContactEvents(cs, n - 1);
      var c := cs[n - 1];
      ReplayConcat(d, before, [MtSlot(n - 1), MtTrackingId(c.id), MtPositionX(c.x), MtPositionY(c.y)]);
      ReplayContact(Replay(d, before), n - 1, c);
    }
  }

  lemma {:induction false} ReplayLifts(d: Decoder, n: nat)
    requires Sane(d) && n <= MAX_CONTACTS
    ensures var r := Replay(d, LiftEvents(n));
            && r == d.(slot := r.slot, slots := r.slots)
            && forall i :: 0 <= i < MAX_CONTACTS ==>
                 r.slots[i] == if i < n then d.slots[i].(id := -1) else d.slots[i]
    ensures Frames(d, LiftEvents(n)) == []
    decreases n
  {
    if n == 0 {
    } else {
      ReplayLifts(d, n - 1);
      var before := LiftEvents(n - 1);
      ReplayConcat(d, before, [MtSlot(n - 1), MtTrackingId(-1)]);
      ReplayTwo(Replay(d, before), MtSlot(n - 1), MtTrackingId(-1));
    }
  }

  lemma {:induction false} ReplayOne(d: Decoder, a: Event)
    requires Sane(d)
    ensures Replay(d, [a]) == Feed(d, a)
    ensures Frames(d, [a]) == if a.SynReport? then [Visible(d)] else []
  {
    assert [a][..0] == [];
    assert Replay(d, [a]) == Feed(Replay(d, []), a);
  }

  lemma {:induction false} ReplayTwo(d: Decoder, a: Event, b: Event)
    requires Sane(d)
    ensures Replay(d, [a, b]) == Feed(Feed(d, a), b)
    ensures !a.SynReport? && !b.SynReport? ==> Frames(d, [a, b]) == []
  {
    ReplayOne(d, a);
    ReplayOne(Feed(d, a), b);
    ReplayConcat(d, [a], [b]);
    assert [a] + [b] == [a, b];
  }

  lemma {:induction false} ReplayFour(d: Decoder, a: Event, b: Event, c: Event, e: Event)
    requires Sane(d)
    ensures Replay(d, [a, b, c, e]) == Feed(Feed(Feed(Feed(d, a), b), c), e)
    ensures !a.SynReport? && !b.SynReport? && !c.SynReport? && !e.SynReport? ==> Frames(d, [a, b, c, e]) == []
  {
    ReplayTwo(d, a, b);
    ReplayTwo(Feed(Feed(d, a), b), c, e);
    ReplayConcat(d, [a, b], [c, e]);
    assert [a, b] + [c, e] == [a, b, c, e];
  }

  /** Any stretch of the stream that ends with its only SYN_REPORT shows exactly one frame. */
  lemma {:induction false} OneFrame(d: Decoder, es: seq<Event>)
    requires Sane(d) && Frames(d, es) == []
    ensures Replay(d, es + [SynReport]) == Replay(d, es)
    ensures Frames(d, es + [SynReport]) == [Visible(Replay(d, es))]
  {
    ReplayConcat(d, es, [SynReport]);
    ReplayOne(Replay(d, es), SynReport);
  }

  lemma {:induction false} ReplayWrite(d: Decoder, s: Device)
    requires Sane(d) && Inv(s) && s.active
    ensures var r := Replay(d, WriteEvents(s));
            && r == Decoder(r.slot, r.slots, s.contacts[0].x, s.contacts[0].y, d.keys)
            && forall i :: 0 <= i < MAX_CONTACTS ==>
                 r.slots[i] == if i < s.fingers then s.contacts[i] else d.slots[i]
    ensures Frames(d, WriteEvents(s)) == []
  {
    var before := ContactEvents(s.contacts, s.fingers);
    ReplayContacts(d, s.contacts, s.fingers);
    ReplayConcat(d, before, [AbsX(s.contacts[0].x), AbsY(s.contacts[0].y)]);
    ReplayTwo(Replay(d, before), AbsX(s.contacts[0].x), AbsY(s.contacts[0].y));
  }

  /** The decoder holds the device's contacts in the slots below `fingers` and nothing above. */
  predicate Holds(d: Decoder, s: Device)
    requires Sane(d) && Shaped(s)
  {
    && (forall i :: 0 <= i < s.fingers ==> d.slots[i] == s.contacts[i])
    && (forall i :: s.fingers <= i < MAX_CONTACTS ==> d.slots[i].id == -1)
    && d.x == s.contacts[0].x
    && d.y == s.contacts[0].y
  }

  lemma HoldsShows(d: Decoder, s: Device)
    requires Sane(d) && Inv(s) && Holds(d, s)
    requires d.keys == if s.active then {BtnTouch, ToolCode(s.fingers)} else {}
    ensures Visible(d) == Shown(s)
  {
    assert Visible(d).contacts == Shown(s).contacts;
  }

  ghost predicate Coupled(d: Decoder, s: Device)
  {
    Sane(d) && Inv(s) && Holds(d, s) && d.keys == if s.active then {BtnTouch, ToolCode(s.fingers)} else {}
  }

  lemma {:induction false} EndShows(d: Decoder, s: Device)
    requires Coupled(d, s) && s.active
    ensures Coupled(Replay(d, EndEvents(s)), Ended(s))
    ensures Frames(d, EndEvents(s)) == [Shown(Ended(s))]
  {
    var lifts := LiftEvents(s.fingers);
    var k1, k2, k3 := KeyEvent(ToolCode(s.fingers), false), KeyEvent(BtnTouch, false), KeyEvent(BtnLeft, false);
    ReplayLifts(d, s.fingers);
    var d1 := Replay(d, lifts);
    ReplayTwo(d1, k1, k2);
    ReplayConcat(d, lifts, [k1, k2]);
    var d2 := Replay(d, lifts + [k1, k2]);
    ReplayOne(d2, k3);
    ReplayConcat(d, lifts + [k1, k2], [k3]);
    var es := lifts + [k1, k2] + [k3];
    OneFrame(d, es);
    assert EndEvents(s) == es + [SynReport];
    assert Replay(d, es).keys == {};
    HoldsShows(Replay(d, es), Ended(s));
  }

  lemma {:induction false} BeginShows(d: Decoder, s: Device, fingers: nat)
    requires Coupled(d, s) && !s.active
    ensures Coupled(Replay(d, BeginEvents(s, fingers)), Begun(s, fingers))
    ensures Frames(d, BeginEvents(s, fingers)) == [Shown(Begun(s, fingers))]
  {
    var t := Begun(s, fingers);
    BegunKeepsInv(s, fingers);
    var k1, k2 := KeyEvent(ToolCode(t.fingers), true), KeyEvent(BtnTouch, true);
    ReplayWrite(d, t);
    ReplayConcat(d, WriteEvents(t), [k1, k2]);
    ReplayTwo(Replay(d, WriteEvents(t)), k1, k2);
    var es := WriteEvents(t) + [k1, k2];
    OneFrame(d, es);
    assert BeginEvents(s, fingers) == es + [SynReport];
    assert Replay(d, es).keys == {BtnTouch, ToolCode(t.fingers)};
    HoldsShows(Replay(d, es), t);
  }

  lemma {:induction false} MoveShows(d: Decoder, s: Device, dx: int, dy: int)
    requires Coupled(d, s) && s.active
    ensures Coupled(Replay(d, Emitted(s, Move(dx, dy))), Next(s, Move(dx, dy)))
    ensures Frames(d, Emitted(s, Move(dx, dy))) == [Shown(Next(s, Move(dx, dy)))]
  {
    var t := Next(s, Move(dx, dy));
    StepKeepsInv(s, Move(dx, dy));
    ReplayWrite(d, t);
    OneFrame(d, WriteEvents(t));
    HoldsShows(Replay(d, WriteEvents(t)), t);
  }

  lemma {:induction false} RestartShows(d: Decoder, s: Device, fingers: nat)
    requires Coupled(d, s) && s.active
    ensures Coupled(Replay(d, Emitted(s, Begin(fingers))), Begun(s, fingers))
    ensures Frames(d, Emitted(s, Begin(fingers))) == ShownBy(s, Begin(fingers))
  {
    EndShows(d, s);
    assert Begun(Ended(s), fingers) == Begun(s, fingers);
    assert BeginEvents(Ended(s), fingers) == BeginEvents(s, fingers);
    BeginShows(Replay(d, EndEvents(s)), Ended(s), fingers);
    ReplayConcat(d, EndEvents(s), BeginEvents(s, fingers));
  }

  lemma {:induction false} StepShows(d: Decoder, s: Device, op: Op)
    requires Coupled(d, s)
    ensures Coupled(Replay(d, Emitted(s, op)), Next(s, op))
    ensures Frames(d, Emitted(s, op)) == ShownBy(s, op)
  {
    match op
    case Begin(fingers) =>
      if s.active {
        RestartShows(d, s, fingers);
      } else {
        BeginShows(d, s, fingers);
        assert Emitted(s, op) == BeginEvents(s, fingers);
      }
    case Move(dx, dy) =>
      if s.active {
        MoveShows(d, s, dx, dy);
      }
    case End =>
      if s.active {
        EndShows(d, s);
      }
  }

  function After(run: seq<Op>): (s: Device)
    ensures Shaped(s)
  {
    if run == [] then INIT else Next(After(run[..|run| - 1]), run[|run| - 1])
  }

  function Trace(run: seq<Op>): seq<Event> {
    if run == [] then []
    else Trace(run[..|run| - 1]) + Emitted(After(run[..|run| - 1]), run[|run| - 1])
  }

  function ShownOver(run: seq<Op>): seq<Frame> {
    if run == [] then []
    else ShownOver(run[..|run| - 1]) + ShownBy(After(run[..|run| - 1]), run[|run| - 1])
  }

  lemma {:induction false} RunCoupled(run: seq<Op>)
    ensures Coupled(Replay(POWER_ON, Trace(run)), After(run))
    ensures Frames(POWER_ON, Trace(run)) == ShownOver(run)
    decreases |run|
  {
    if run == [] {
    } else {
      var front, op := run[..|run| - 1], run[|run| - 1];
      RunCoupled(front);
      StepShows(Replay(POWER_ON, Trace(front)), After(front), op);
      ReplayConcat(POWER_ON, Trace(front), Emitted(After(front), op));
    }
  }

  /** Over any run of begin, move and end, the frames decoded from the stream are exactly the states
      of the device, and nothing written after the last SYN_REPORT is left pending. */
  lemma {:induction false} StreamShowsDevice(run: seq<Op>)
    ensures Frames(POWER_ON, Trace(run)) == ShownOver(run)
    ensures Visible(Replay(POWER_ON, Trace(run))) == Shown(After(run))
  {
    RunCoupled(run);
    HoldsShows(Replay(POWER_ON, Trace(run)), After(run));
  }

  // ---------------------------------------------------------------------------------------------
  // Geometry and identity of the decoded contacts
  // ---------------------------------------------------------------------------------------------

  ghost predicate WellPlaced(f: Frame) {
    && (|f.contacts| == 0 || 3 <= |f.contacts| <= 4)
    && (forall i :: i in f.contacts <==> 0 <= i < |f.contacts|)
    && (f.keys == if |f.contacts| == 0 then {}
                  else if |f.contacts| == 3 then {BtnTouch, ToolTripleTap} else {BtnTouch, ToolQuadTap})
    && (forall i :: i in f.contacts ==>
          100 <= f.contacts[i].x <= 15900 && 100 <= f.contacts[i].y <= 9900)
    && (forall i, j :: i in f.contacts && j in f.contacts && j == i + 1 ==> Beside(f.contacts[i], f.contacts[j]))
  }

  lemma {:induction false} RangeSize(s: set<int>, n: nat)
    requires forall i: int :: i in s <==> 0 <= i < n
    ensures |s| == n
    decreases n
  {
    if n == 0 {
      assert forall i: int | i in s :: i < 0;
      assert s == {};
    } else {
      RangeSize(s - {n - 1}, n - 1);
    }
  }

  lemma ShownWellPlaced(s: Device)
    requires Inv(s)
    ensures WellPlaced(Shown(s))
  {
    RangeSize(Shown(s).contacts.Keys, s.fingers);
    assert |Shown(s).contacts| == |Shown(s).contacts.Keys|;
  }

  lemma StepWellPlaced(s: Device, op: Op)
    requires Inv(s)
    ensures forall f :: f in ShownBy(s, op) ==> WellPlaced(f)
  {
    StepKeepsInv(s, op);
    ShownWellPlaced(Next(s, op));
    ShownWellPlaced(Ended(s));
  }

  /** A gesture begins with the wanted number of fingers, or the nearest it supports, in a level row with
      the spacing between neighbours and its middle at the centre of the pad. */
  lemma BeginIsCentred(s: Device, fingers: nat)
    requires Inv(s)
    ensures var f := Shown(Next(s, Begin(fingers)));
            var n := |f.contacts|;
            && n == (if fingers < 3 then 3 else if fingers > 4 then 4 else fingers)
            && (forall i :: i in f.contacts <==> 0 <= i < n)
            && (forall i, j :: i in f.contacts && j in f.contacts && j == n - 1 - i ==>
                  f.contacts[i].x + f.contacts[j].x == 16000 && 2 * f.contacts[i].y == 10000)
            && (forall i, j :: i in f.contacts && j in f.contacts && j == i + 1 ==>
                  f.contacts[j].x - f.contacts[i].x == 800)
  {
    var t := Next(s, Begin(fingers));
    RangeSize(Shown(t).contacts.Keys, t.fingers);
    assert |Shown(t).contacts| == |Shown(t).contacts.Keys|;
    forall i: nat | i < t.fingers
      ensures t.contacts[i] == Fresh(t.fingers, i, s.nextId)
    {
      ResetAt(s.contacts, t.fingers, t.fingers, s.nextId, i);
    }
  }

  /** A move shifts each coordinate of each contact by exactly what was asked, except where a margin is in
      the way: then the contact stops at that margin. */
  lemma MoveShifts(s: Device, dx: int, dy: int, i: nat)
    requires Inv(s) && s.active && i < s.fingers
    ensures var c, c' := Shown(s).contacts[i], Shown(Next(s, Move(dx, dy))).contacts[i];
            && c'.id == c.id
            && (c'.x == c.x + dx || (c'.x == MARGIN && c.x + dx < MARGIN) ||
                (c'.x == WIDTH - MARGIN && c.x + dx > WIDTH - MARGIN))
            && (c'.y == c.y + dy || (c'.y == MARGIN && c.y + dy < MARGIN) ||
                (c'.y == HEIGHT - MARGIN && c.y + dy > HEIGHT - MARGIN))
  {
    MoveAllAt(s.contacts, s.fingers, dx, dy, i);
  }

  /** Every decoded frame has no contact or 3 to 4 of them in the lowest slots, inside the margins, at
      one height, with gaps of 0 to 800, and the touch and tool keys that go with their number. */
  lemma {:induction false} FramesWellPlaced(run: seq<Op>)
    ensures forall f :: f in Frames(POWER_ON, Trace(run)) ==> WellPlaced(f)
    decreases |run|
  {
    RunCoupled(run);
    if run == [] {
    } else {
      var front, op := run[..|run| - 1], run[|run| - 1];
      FramesWellPlaced(front);
      RunCoupled(front);
      StepWellPlaced(After(front), op);
    }
  }

  predicate Has(f: Frame, slot: int, id: int) {
    slot in f.contacts && f.contacts[slot].id == id
  }

  /** A tracking id names one uninterrupted stay in one slot. */
  ghost predicate IdsNameContacts(fs: seq<Frame>) {
    forall i, j, k, a, b, id :: 0 <= i <= j <= k < |fs| && Has(fs[i], a, id) && Has(fs[k], b, id) ==>
      a == b && Has(fs[j], a, id)
  }

  ghost predicate IdsUsed(fs: seq<Frame>, s: Device) {
    forall i, a, id :: 0 <= i < |fs| && Has(fs[i], a, id) ==> id < s.nextId
  }

  /** A contact still down has been in every frame since it first appeared, in the same slot. */
  ghost predicate StillDown(fs: seq<Frame>, s: Device)
    requires Shaped(s)
  {
    forall i, j, a, b, id :: 0 <= i <= j < |fs| && Has(fs[i], a, id) && Has(Shown(s), b, id) ==>
      a == b && Has(fs[j], a, id)
  }

  ghost predicate History(fs: seq<Frame>, s: Device) {
    Inv(s) && IdsNameContacts(fs) && IdsUsed(fs, s) && StillDown(fs, s)
  }

  lemma DistinctIds(s: Device, a: int, b: int, id: int)
    requires Inv(s) && Has(Shown(s), a, id) && Has(Shown(s), b, id)
    ensures a == b
  {
    var c := s.contacts;
    if s.fingers == 3 {
      assert Beside(c[0], c[1]) && Beside(c[1], c[2]);
    } else {
      assert Beside(c[0], c[1]) && Beside(c[1], c[2]) && Beside(c[2], c[3]);
    }
  }

  /** What a state may do to the ids of the one before it: keep them in place or draw new ones. */
  ghost predicate Continues(s: Device, t: Device)
    requires Shaped(s) && Shaped(t)
  {
    && s.nextId <= t.nextId
    && (forall b, id :: Has(Shown(t), b, id) ==> Has(Shown(s), b, id) || s.nextId <= id)
  }

  lemma HistoryGrows(fs: seq<Frame>, s: Device, t: Device)
    requires History(fs, s) && Inv(t) && Continues(s, t)
    ensures History(fs + [Shown(t)], t)
  {
    var gs := fs + [Shown(t)];
    forall i, j, a, b, id | 0 <= i <= j < |gs| && Has(gs[i], a, id) && Has(Shown(t), b, id)
      ensures a == b && Has(gs[j], a, id)
    {
      if i == |fs| {
        DistinctIds(t, a, b, id);
      } else {
        assert id < s.nextId;
        assert Has(Shown(s), b, id);
      }
    }
    assert IdsUsed(gs, t);
    forall i, j, k, a, b, id | 0 <= i <= j <= k < |gs| && Has(gs[i], a, id) && Has(gs[k], b, id)
      ensures a == b && Has(gs[j], a, id)
    {
      if k == |fs| {
        assert Has(Shown(t), b, id);
      }
    }
  }

  lemma EndedContinues(s: Device)
    requires Inv(s)
    ensures Inv(Ended(s)) && Continues(s, Ended(s))
  {
  }

  lemma BegunContinues(s: Device, fingers: nat)
    requires Inv(s)
    ensures Inv(Begun(s, fingers)) && Continues(s, Begun(s, fingers))
  {
    BegunKeepsInv(s, fingers);
  }

  lemma MovedContinues(s: Device, dx: int, dy: int)
    requires Inv(s)
    ensures Inv(Next(s, Move(dx, dy))) && Continues(s, Next(s, Move(dx, dy)))
  {
    StepKeepsInv(s, Move(dx, dy));
    if s.active {
      forall i: nat | i < s.fingers
        ensures Next(s, Move(dx, dy)).contacts[i].id == s.contacts[i].id
      {
        MoveAllAt(s.contacts, s.fingers, dx, dy, i);
      }
    }
  }

  lemma StepHistory(fs: seq<Frame>, s: Device, op: Op)
    requires History(fs, s)
    ensures History(fs + ShownBy(s, op), Next(s, op))
  {
    match op
    case Begin(fingers) =>
      if s.active {
        EndedContinues(s);
        HistoryGrows(fs, s, Ended(s));
        var gs := fs + [Shown(Ended(s))];
        BegunContinues(Ended(s), fingers);
        assert Begun(Ended(s), fingers) == Begun(s, fingers);
        HistoryGrows(gs, Ended(s), Begun(s, fingers));
        assert gs + [Shown(Begun(s, fingers))] == fs + ShownBy(s, op);
      } else {
        BegunContinues(s, fingers);
        HistoryGrows(fs, s, Begun(s, fingers));
        assert fs + ShownBy(s, op) == fs + [Shown(Begun(s, fingers))];
      }
    case Move(dx, dy) =>
      if s.active {
        MovedContinues(s, dx, dy);
        HistoryGrows(fs, s, Next(s, op));
      } else {
        assert fs + [] == fs;
      }
    case End =>
      if s.active {
        EndedContinues(s);
        HistoryGrows(fs, s, Ended(s));
      } else {
        assert fs + [] == fs;
      }
  }

  lemma {:induction false} RunHistory(run: seq<Op>)
    ensures History(ShownOver(run), After(run))
    decreases |run|
  {
    if run == [] {
    } else {
      RunHistory(run[..|run| - 1]);
      StepHistory(ShownOver(run[..|run| - 1]), After(run[..|run| - 1]), run[|run| - 1]);
    }
  }

  /** No tracking id ever comes back: in the decoded frames of any run an id stays in one slot without
      a break, from the frame where it appears to the frame where it was last seen. */
  lemma {:induction false} TrackingIdsNeverRepeat(run: seq<Op>)
    ensures IdsNameContacts(Frames(POWER_ON, Trace(run)))
  {
    RunHistory(run);
    StreamShowsDevice(run);
  }

  // ---------------------------------------------------------------------------------------------
  // Moves away from the margins
  // ---------------------------------------------------------------------------------------------

  function RunFrom(s: Device, ops: seq<Op>): (t: Device)
    requires Shaped(s)
    ensures Shaped(t)
  {
    if ops == [] then s else Next(RunFrom(s, ops[..|ops| - 1]), ops[|ops| - 1])
  }

  /** The sum of these moves. */
  function Sum(ops: seq<Op>): (int, int) {
    if ops == [] then (0, 0)
    else
      var sum, last := Sum(ops[..|ops| - 1]), ops[|ops| - 1];
      if last.Move? then (sum.0 + last.dx, sum.1 + last.dy) else sum
  }

  /** No contact would be taken past a margin. */
  predicate Clear(s: Device, op: Op)
    requires Shaped(s)
  {
    op.Move? && forall i :: 0 <= i < s.fingers ==>
      MARGIN <= s.contacts[i].x + op.dx <= WIDTH - MARGIN && MARGIN <= s.contacts[i].y + op.dy <= HEIGHT - MARGIN
  }

  predicate AllClear(s: Device, ops: seq<Op>)
    requires Shaped(s)
  {
    ops == [] ||
    (AllClear(s, ops[..|ops| - 1]) && Clear(RunFrom(s, ops[..|ops| - 1]), ops[|ops| - 1]))
  }

  /** Moves that meet no margin add up. */
  lemma {:induction false} MovesAddUp(s: Device, ops: seq<Op>, i: nat)
    requires Inv(s) && s.active && AllClear(s, ops) && i < s.fingers
    ensures var t := RunFrom(s, ops);
            && Inv(t) && t.active && t.fingers == s.fingers
            && t.contacts[i] == Contact(s.contacts[i].x + Sum(ops).0, s.contacts[i].y + Sum(ops).1, s.contacts[i].id)
    decreases |ops|
  {
    if ops == [] {
    } else {
      var front, op := ops[..|ops| - 1], ops[|ops| - 1];
      MovesAddUp(s, front, i);
      var t := RunFrom(s, front);
      StepKeepsInv(t, op);
      MoveAllAt(t.contacts, t.fingers, op.dx, op.dy, i);
    }
  }

  lemma {:induction false} AfterConcat(prior: seq<Op>, ops: seq<Op>)
    ensures After(prior + ops) == RunFrom(After(prior), ops)
    decreases |ops|
  {
    if ops == [] {
      assert prior + ops == prior;
    } else {
      AfterConcat(prior, ops[..|ops| - 1]);
      assert (prior + ops)[..|prior + ops| - 1] == prior + ops[..|ops| - 1];
    }
  }

  lemma {:induction false} RunFromHead(s: Device, op: Op, ops: seq<Op>)
    requires Shaped(s)
    ensures RunFrom(s, [op] + ops) == RunFrom(Next(s, op), ops)
    decreases |ops|
  {
    if ops == [] {
      assert [op] + ops == [op] && [op][..0] == [];
      assert RunFrom(s, [op]) == Next(RunFrom(s, []), op);
    } else {
      RunFromHead(s, op, ops[..|ops| - 1]);
      assert ([op] + ops)[..|[op] + ops| - 1] == [op] + ops[..|ops| - 1];
    }
  }

  /** After any history, begin and then moves that meet no margin: in the frame the receiver decodes each
      contact has moved from where it was set down by exactly the sum of the moves. */
  lemma {:induction false} GestureIsSeen(prior: seq<Op>, fingers: nat, ops: seq<Op>, i: nat)
    requires var s := Next(After(prior), Begin(fingers));
             AllClear(s, ops) && i < s.fingers
    ensures var s := Next(After(prior), Begin(fingers));
            var f := Visible(Replay(POWER_ON, Trace(prior + ([Begin(fingers)] + ops))));
            && i in f.contacts
            && f.contacts[i] ==
               Contact(s.contacts[i].x + Sum(ops).0, s.contacts[i].y + Sum(ops).1, s.contacts[i].id)
  {
    var s := Next(After(prior), Begin(fingers));
    RunCoupled(prior);
    StepKeepsInv(After(prior), Begin(fingers));
    MovesAddUp(s, ops, i);
    AfterConcat(prior, [Begin(fingers)] + ops);
    RunFromHead(After(prior), Begin(fingers), ops);
    StreamShowsDevice(prior + ([Begin(fingers)] + ops));
  }
}
