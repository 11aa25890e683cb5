/** The HID++ 2.0 request/response multiplexer (src/logid/backend/hidpp20/Device.cpp).

    Any number of sender threads share sixteen response slots, chosen by the low nibble of the
    feature index.  Each critical section of `_response_mutex` is one atomic step; between two
    steps any other thread may run.  `SlotTable` holds the sections in the imperative form of the
    source, the machine below composes them into runs. */
module ResponseSlots {
  import opened Common
  import opened HidppReport

  const SLOT_COUNT := 16

  datatype Response = Reply(report: Bytes) | Failed(error: Hidpp20Error)

  datatype Key = Key(feature: Byte, address: Byte)

  datatype Slot = Slot(response: Option<Response>, feature: Option<Byte>, address: Option<Byte>)

  const FREE := Slot(None, None, None)

  predicate Occupied(slot: Slot) {
    slot.feature.Some?
  }

  function SlotIndex(feature: Byte): (i: nat)
    ensures i < SLOT_COUNT
  {
    feature % SLOT_COUNT
  }

  function RequestKey(request: Bytes): Key
    requires Valid(request)
  {
    Key(Feature(request), Address(request))
  }

  /** What responseReport makes of an incoming report: an error or a plain reply. */
  function Decode(report: Bytes): Response
    requires Valid(report)
  {
    match IsError20(report)
    case Some(e) => Failed(e)
    case None => Reply(report)
  }

  function ResponseKey(response: Response): Key
    requires response.Reply? ==> Valid(response.report)
  {
    match response
    case Reply(report) => Key(Feature(report), Address(report))
    case Failed(e) => Key(e.featureIndex, Pack(e.function_, e.softwareId))
  }

  /** The key read from an incoming report is two adjacent bytes of it, one place further on when
      the report is an error: nothing is lost by splitting and rejoining the nibbles. */
  lemma DecodedKeyIsBytes(report: Bytes)
    requires Valid(report)
    ensures ResponseKey(Decode(report)) ==
            if report[0] == LONG && report[2] == HIDPP20_ERROR
            then Key(report[3], report[4])
            else Key(report[2], report[3])
  {
    if IsError20(report).Some? {
      PackUnpack(report[4]);
    }
  }

  /** Where the bytes a report is matched by begin: one place later in an error of HID++ 2.0. */
  function KeyAt(report: Bytes): (at: nat)
    requires Valid(report)
    ensures at + 1 < |report|
  {
    if report[0] == 0x11 && report[2] == 0xff then 3 else 2
  }

  /** What a sender must learn from a report, in terms of its bytes: of an error the device and the
      code, with the call they are about; of anything else the report itself. */
  predicate Conveys(report: Bytes, response: Response)
    requires Valid(report)
  {
    if report[0] == 0x11 && report[2] == 0xff then
      && response.Failed?
      && response.error.deviceIndex == report[1]
      && response.error.errorCode == report[5]
      && response.error.featureIndex == report[3]
      && response.error.function_ * 16 + response.error.softwareId == report[4]
      && response.error.softwareId < 16
    else
      response == Reply(report)
  }

  lemma DecodeConveys(report: Bytes)
    requires Valid(report)
    ensures Conveys(report, Decode(report))
    ensures ResponseKey(Decode(report)) == Key(report[KeyAt(report)], report[KeyAt(report) + 1])
  {
    DecodedKeyIsBytes(report);
  }

  // ---------------------------------------------------------------------------------------------
  // The slot table and its critical sections
  // ---------------------------------------------------------------------------------------------

  predicate Answers(slot: Slot, key: Key) {
    slot.feature == Some(key.feature) && slot.address == Some(key.address)
  }

  function Claimed(slots: seq<Slot>, key: Key): (r: seq<Slot>)
    requires |slots| == SLOT_COUNT
    ensures |r| == SLOT_COUNT
  {
    var i := SlotIndex(key.feature);
    slots[i := slots[i].(feature := Some(key.feature), address := Some(key.address))]
  }

  function Released(slots: seq<Slot>, i: nat): (r: seq<Slot>)
    requires |slots| == SLOT_COUNT && i < SLOT_COUNT
    ensures |r| == SLOT_COUNT
  {
    slots[i := FREE]
  }

  function Stored(slots: seq<Slot>, response: Response): (r: seq<Slot>)
    requires |slots| == SLOT_COUNT
    requires response.Reply? ==> Valid(response.report)
    ensures |r| == SLOT_COUNT
  {
    var key := ResponseKey(response);
    var i := SlotIndex(key.feature);
    if Answers(slots[i], key) then slots[i := slots[i].(response := Some(response))] else slots
  }

  class SlotTable {
    const responses: array<Slot>

    ghost predicate Ok()
      reads this
    {
      responses.Length == SLOT_COUNT
    }

    constructor ()
      ensures Ok() && fresh(responses)
      ensures forall i :: 0 <= i < SLOT_COUNT ==> responses[i] == FREE
    {
      responses := new Slot[SLOT_COUNT](_ => FREE);
    }

    /** The claim section of sendReport, up to the write of the request. */
    method TryClaim(request: Bytes) returns (claimed: bool)
      requires Ok() && Valid(request)
      modifies responses
      ensures claimed <==> !Occupied(old(responses[SlotIndex(Feature(request))]))
      ensures responses[..] ==
              if claimed then Claimed(old(responses[..]), RequestKey(request)) else old(responses[..])
    {
      var i := SlotIndex(Feature(request));
      if responses[i].feature.Some? {
        return false;
      }
      responses[i] := responses[i].(feature := Some(Feature(request)));
      responses[i] := responses[i].(address := Some(Address(request)));
      return true;
    }

    /** The section after the wait: take the stored response, or give up on a timeout.
        None means the wait goes on. */
    method Collect(request: Bytes, timedOut: bool) returns (done: bool, response: Option<Response>)
      requires Ok() && Valid(request)
      modifies responses
      ensures response == old(responses[SlotIndex(Feature(request))]).response
      ensures done <==> response.Some? || timedOut
      ensures responses[..] ==
              if done then Released(old(responses[..]), SlotIndex(Feature(request))) else old(responses[..])
    {
      var i := SlotIndex(Feature(request));
      response := responses[i].response;
      done := response.Some? || timedOut;
      if done {
        Reset(i);
      }
    }

    method Reset(i: nat)
      requires Ok() && i < SLOT_COUNT
      modifies responses
      ensures responses[..] == Released(old(responses[..]), i)
    {
      responses[i] := responses[i].(response := None);
      responses[i] := responses[i].(feature := None);
      responses[i] := responses[i].(address := None);
    }

    method ResponseReport(report: Bytes) returns (handled: bool)
      requires Ok() && Valid(report)
      modifies responses
      ensures responses[..] == Stored(old(responses[..]), Decode(report))
      ensures handled <==>
              var feature, address := report[KeyAt(report)], report[KeyAt(report) + 1];
              && old(responses[feature % 16]).feature == Some(feature)
              && old(responses[feature % 16]).address == Some(address)
      ensures handled ==>
                var stored := responses[report[KeyAt(report)] % 16].response;
                stored.Some? && Conveys(report, stored.value)
      ensures forall i :: 0 <= i < SLOT_COUNT && (!handled || i != report[KeyAt(report)] % 16) ==>
                responses[i] == old(responses[i])
    {
      DecodeConveys(report);
      var feature: Byte;
      var address: Byte;
      var error := IsError20(report);
      if error.Some? {
        feature := error.value.featureIndex;
        address := Pack(error.value.function_, error.value.softwareId);
      } else {
        feature := Feature(report);
        address := Address(report);
      }
      var i := SlotIndex(feature);
      if responses[i].feature != Some(feature) || responses[i].address != Some(address) {
        return false;
      }
      responses[i] := responses[i].(response := Some(Decode(report)));
      return true;
    }
  }

  // ---------------------------------------------------------------------------------------------
  // Senders, the receive path, and runs
  // ---------------------------------------------------------------------------------------------

  datatype Outcome = Responded(response: Response) | TimedOut | WriteFailed

  /** Where a sender thread stands in sendReport.  `asleep` is set while the thread waits on the
      condition variable without having been notified since it last looked. */
  datatype Sender =
    | Claiming(request: Bytes, asleep: bool)
    | Awaiting(request: Bytes, asleep: bool)
    | Returned(request: Bytes, outcome: Outcome)

  /** `incoming`, `absorbed` and `dispatched` are the reports received so far, those responseReport
      kept, and those passed on to the event handlers; `leaked` are the slots whose owner's write
      threw after the claim. */
  datatype State = State(
    slots: seq<Slot>,
    senders: map<nat, Sender>,
    incoming: seq<Bytes>,
    absorbed: seq<Bytes>,
    dispatched: seq<Bytes>,
    leaked: set<nat>)

  const INIT := State(seq(SLOT_COUNT, _ => FREE), map[], [], [], [], {})

  datatype Event =
    | Call(t: nat, request: Bytes)
    | Claim(t: nat, writeOk: bool)
    | Wake(t: nat)
    | Check(t: nat)
    | Timeout(t: nat)
    | Receive(report: Bytes)

  function Index(sender: Sender): nat
    requires Valid(sender.request)
  {
    SlotIndex(Feature(sender.request))
  }

  function Notified(sender: Sender): Sender {
    match sender
    case Claiming(q, _) => Claiming(q, false)
    case Awaiting(q, _) => Awaiting(q, false)
    case Returned(_, _) => sender
  }

  /** notify_all on the one condition variable both waits share. */
  function NotifyAll(senders: map<nat, Sender>): map<nat, Sender> {
    map t | t in senders :: Notified(senders[t])
  }

  predicate TypeOk(s: State) {
    && |s.slots| == SLOT_COUNT
    && (forall t :: t in s.senders ==> Valid(s.senders[t].request))
    && (forall i :: 0 <= i < SLOT_COUNT && s.slots[i].response.Some? && s.slots[i].response.value.Reply? ==>
                      Valid(s.slots[i].response.value.report))
  }

  predicate Enabled(s: State, e: Event)
    requires TypeOk(s)
  {
    match e
    case Call(t, request) => Valid(request) && (t in s.senders ==> s.senders[t].Returned?)
    case Claim(t, _) => t in s.senders && s.senders[t].Claiming? && !s.senders[t].asleep
    case Wake(t) => t in s.senders && !s.senders[t].Returned? && s.senders[t].asleep
    case Check(t) => t in s.senders && s.senders[t].Awaiting? && !s.senders[t].asleep
    case Timeout(t) => t in s.senders && s.senders[t].Awaiting?
    case Receive(report) => Valid(report)
  }

  /** wait_for's predicate is looked at once more when the time is up, so a response that arrived
      in time is never dropped in favour of a timeout. */
  function Finish(s: State, t: nat, timedOut: bool): State
    requires TypeOk(s) && t in s.senders && s.senders[t].Awaiting?
  {
    var q := s.senders[t].request;
    var i := Index(s.senders[t]);
    var response := s.slots[i].response;
    if response.Some? || timedOut then
      var outcome := if response.Some? then Responded(response.value) else TimedOut;
      s.(slots := Released(s.slots, i), senders := NotifyAll(s.senders)[t := Returned(q, outcome)])
    else
      s.(senders := s.senders[t := Awaiting(q, true)])
  }

  function Apply(s: State, e: Event): State
    requires TypeOk(s) && Enabled(s, e)
  {
    match e
    case Call(t, request) => s.(senders := s.senders[t := Claiming(request, false)])
    case Claim(t, writeOk) =>
      var q := s.senders[t].request;
      var i := Index(s.senders[t]);
      if Occupied(s.slots[i]) then
        s.(senders := s.senders[t := Claiming(q, true)])
      else if writeOk then
        var slots := Claimed(s.slots, RequestKey(q));
        s.(slots := slots, senders := s.senders[t := Awaiting(q, slots[i].response.None?)])
      else
        s.(slots := Claimed(s.slots, RequestKey(q)),
        senders := s.senders[t := Returned(q, WriteFailed)],
        leaked := s.leaked + {i})
    case Wake(t) => s.(senders := s.senders[t := Notified(s.senders[t])])
    case Check(t) => Finish(s, t, false)
    case Timeout(t) => Finish(s, t, true)
    case Receive(report) =>
      var response := Decode(report);
      var key := ResponseKey(response);
      if Answers(s.slots[SlotIndex(key.feature)], key) then
        s.(slots := Stored(s.slots, response), senders := NotifyAll(s.senders),
        incoming := s.incoming + [report], absorbed := s.absorbed + [report])
      else
        s.(incoming := s.incoming + [report], dispatched := s.dispatched + [report])
  }

  /** `run` leads from `s` to `s'`. */
  ghost predicate Leads(s: State, run: seq<Event>, s': State)
    decreases |run|
  {
    if run == [] then s == s'
    else TypeOk(s) && Enabled(s, run[0]) && Leads(Apply(s, run[0]), run[1..], s')
  }

  // ---------------------------------------------------------------------------------------------
  // The invariant
  // ---------------------------------------------------------------------------------------------

  predicate SlotOk(slot: Slot, i: nat)
    requires slot.response.Some? && slot.response.value.Reply? ==> Valid(slot.response.value.report)
  {
    match slot.feature
    case None => slot == FREE
    case Some(f) =>
      && SlotIndex(f) == i
      && slot.address.Some?
      && (slot.response.Some? ==> ResponseKey(slot.response.value) == Key(f, slot.address.value))
  }

  predicate SenderOk(s: State, sender: Sender)
    requires TypeOk(s) && Valid(sender.request)
  {
    var slot := s.slots[Index(sender)];
    match sender
    case Claiming(_, asleep) => asleep ==> Occupied(slot)
    case Awaiting(q, asleep) =>
      && Index(sender) !in s.leaked
      && Answers(slot, RequestKey(q))
      && (asleep ==> slot.response.None?)
    case Returned(q, outcome) =>
      match outcome
      case Responded(Reply(report)) => Valid(report) && RequestKey(q) == RequestKey(report)
      case Responded(Failed(e)) => RequestKey(q) == ResponseKey(Failed(e))
      case _ => true
  }

  /** Sender `t` owns slot `i`: it claimed it and has not yet returned. */
  predicate Owns(s: State, t: nat, i: nat)
    requires TypeOk(s)
  {
    t in s.senders && s.senders[t].Awaiting? && Index(s.senders[t]) == i
  }

  predicate SlotsOk(s: State) {
    && TypeOk(s)
    && (forall i :: 0 <= i < SLOT_COUNT ==> SlotOk(s.slots[i], i))
    && (forall i :: i in s.leaked ==> i < SLOT_COUNT && Occupied(s.slots[i]))
  }

  predicate SendersOk(s: State)
    requires TypeOk(s)
  {
    forall t :: t in s.senders ==> SenderOk(s, s.senders[t])
  }

  ghost predicate OneOwnerEach(s: State)
    requires TypeOk(s)
  {
    && (forall i: nat, t: nat, t': nat :: Owns(s, t, i) && Owns(s, t', i) ==> t == t')
    && (forall i: nat :: i < SLOT_COUNT && Occupied(s.slots[i]) && i !in s.leaked ==> exists t :: Owns(s, t, i))
  }

  ghost predicate Inv(s: State) {
    && SlotsOk(s)
    && SendersOk(s)
    && OneOwnerEach(s)
    && multiset(s.incoming) == multiset(s.absorbed) + multiset(s.dispatched)
  }

  lemma ConservationKept(s: State, e: Event)
    requires Inv(s) && Enabled(s, e)
    ensures var s' := Apply(s, e);
            multiset(s'.incoming) == multiset(s'.absorbed) + multiset(s'.dispatched)
  {
  }

  lemma ClaimKeepsSlots(s: State, t: nat, writeOk: bool)
    requires Inv(s) && Enabled(s, Claim(t, writeOk))
    ensures SlotsOk(Apply(s, Claim(t, writeOk)))
    ensures SendersOk(Apply(s, Claim(t, writeOk)))
  {
    var s' := Apply(s, Claim(t, writeOk));
    var i := Index(s.senders[t]);
    assert forall j :: 0 <= j < SLOT_COUNT && j != i ==> s'.slots[j] == s.slots[j];
    assert SlotOk(s.slots[i], i);
    forall u | u in s'.senders && u != t
      ensures SenderOk(s', s'.senders[u])
    {
      assert SenderOk(s, s.senders[u]);
    }
  }

  lemma FinishKeepsSlots(s: State, t: nat, timedOut: bool)
    requires Inv(s) && Enabled(s, Timeout(t))
    ensures SlotsOk(Finish(s, t, timedOut))
  {
    assert SenderOk(s, s.senders[t]);
  }

  lemma FinishKeepsSenders(s: State, t: nat, timedOut: bool)
    requires Inv(s) && Enabled(s, Timeout(t)) && TypeOk(Finish(s, t, timedOut))
    ensures SendersOk(Finish(s, t, timedOut))
  {
    var s' := Finish(s, t, timedOut);
    var i := Index(s.senders[t]);
    assert SenderOk(s, s.senders[t]) && SlotOk(s.slots[i], i);
    assert Owns(s, t, i);
    assert forall j :: 0 <= j < SLOT_COUNT && j != i ==> s'.slots[j] == s.slots[j];
    forall u | u in s'.senders && u != t
      ensures SenderOk(s', s'.senders[u])
    {
      assert SenderOk(s, s.senders[u]) && !Owns(s, u, i);
    }
  }

  lemma ReceiveKeepsSlots(s: State, report: Bytes)
    requires Inv(s) && Valid(report)
    ensures SlotsOk(Apply(s, Receive(report)))
    ensures SendersOk(Apply(s, Receive(report)))
  {
    var s' := Apply(s, Receive(report));
    var i := SlotIndex(ResponseKey(Decode(report)).feature);
    assert forall j :: 0 <= j < SLOT_COUNT && j != i ==> s'.slots[j] == s.slots[j];
    assert SlotOk(s.slots[i], i);
    forall u | u in s'.senders
      ensures SenderOk(s', s'.senders[u])
    {
      assert SenderOk(s, s.senders[u]);
    }
  }

  lemma OwnerFillsSlot(s: State, t: nat, i: nat)
    requires Inv(s) && Owns(s, t, i)
    ensures i < SLOT_COUNT && Occupied(s.slots[i]) && i !in s.leaked
    ensures Answers(s.slots[i], RequestKey(s.senders[t].request))
  {
    assert SenderOk(s, s.senders[t]);
  }

  /** Ownership is gained only by claiming a free slot, and given up only on return. */
  lemma OwnersAfter(s: State, e: Event, t: nat, i: nat)
    requires Inv(s) && Enabled(s, e) && TypeOk(Apply(s, e))
    ensures Owns(Apply(s, e), t, i) ==>
              Owns(s, t, i) || (e.Claim? && e.t == t && i < SLOT_COUNT && !Occupied(s.slots[i]))
  {
  }

  /** Whether this step ends the wait of sender t: its time is up, or it finds its response. */
  predicate Returns(s: State, e: Event, t: nat, i: nat)
    requires TypeOk(s) && i < SLOT_COUNT
  {
    e == Timeout(t) || (e == Check(t) && s.slots[i].response.Some?)
  }

  /** An owner keeps its slot, whatever anyone does, up to exactly the step in which it returns; that frees
      the slot. */
  lemma OwnersStay(s: State, e: Event, t: nat, i: nat)
    requires Inv(s) && Enabled(s, e) && TypeOk(Apply(s, e))
    requires Owns(s, t, i) && i < SLOT_COUNT
    ensures Owns(Apply(s, e), t, i) <==> !Returns(s, e, t, i)
    ensures Returns(s, e, t, i) ==> Apply(s, e).slots[i] == FREE
  {
  }

  lemma StepKeepsOwners(s: State, e: Event)
    requires Inv(s) && Enabled(s, e) && TypeOk(Apply(s, e))
    ensures OneOwnerEach(Apply(s, e))
  {
    var s' := Apply(s, e);
    forall i: nat | i < SLOT_COUNT && Occupied(s'.slots[i]) && i !in s'.leaked
      ensures exists t :: Owns(s', t, i)
    {
      if Occupied(s.slots[i]) {
        var t :| Owns(s, t, i);
        OwnersStay(s, e, t, i);
      } else {
        assert Owns(s', e.t, i);
      }
    }
    forall i: nat, t: nat, t': nat | Owns(s', t, i) && Owns(s', t', i)
      ensures t == t'
    {
      OwnersAfter(s, e, t, i);
      OwnersAfter(s, e, t', i);
      assert Owns(s, t, i) || Owns(s, t', i) ==> Occupied(s.slots[i]) by {
        if Owns(s, t, i) {
          OwnerFillsSlot(s, t, i);
        } else if Owns(s, t', i) {
          OwnerFillsSlot(s, t', i);
        }
      }
    }
  }

  lemma StepKeepsInv(s: State, e: Event)
    requires Inv(s) && Enabled(s, e)
    ensures Inv(Apply(s, e))
  {
    match e {
      case Claim(t, writeOk) => ClaimKeepsSlots(s, t, writeOk);
      case Check(t) => FinishKeepsSlots(s, t, false); FinishKeepsSenders(s, t, false);
      case Timeout(t) => FinishKeepsSlots(s, t, true); FinishKeepsSenders(s, t, true);
      case Receive(report) => ReceiveKeepsSlots(s, report);
      case Call(_, _) =>
      case Wake(_) =>
    }
    StepKeepsOwners(s, e);
    ConservationKept(s, e);
  }

  /** Every interleaving of any number of senders and incoming reports keeps the invariant. */
  lemma {:induction false} RunKeepsInv(s: State, run: seq<Event>, s': State)
    requires Inv(s) && Leads(s, run, s')
    ensures Inv(s')
    decreases |run|
  {
    if run == [] {
    } else {
      StepKeepsInv(s, run[0]);
      RunKeepsInv(Apply(s, run[0]), run[1..], s');
    }
  }

  /** Main safety result, for every run from the idle device, spelled out.

      - An occupied slot that no write failure leaked has exactly one owner, whose feature and
        address it records; conversely every waiting sender's slot is its own.
      - A stored response matches the slot's owner.
      - A sender that returned a report or an error got one with its own feature and address.
      - No sender is stranded: one asleep before its claim faces an occupied slot, one asleep for
        its response has none stored.
      - Every incoming report was absorbed or dispatched, and none both. */
  lemma {:induction false} SlotSafety(run: seq<Event>, s: State)
    requires Leads(INIT, run, s)
    ensures TypeOk(s)
    ensures forall i: nat, t: nat, t': nat :: Owns(s, t, i) && Owns(s, t', i) ==> t == t'
    ensures forall i :: 0 <= i < SLOT_COUNT && i !in s.leaked ==>
              (Occupied(s.slots[i]) <==> exists t :: Owns(s, t, i))
    ensures forall t: nat, i: nat :: Owns(s, t, i) ==>
              i < SLOT_COUNT && i !in s.leaked && Answers(s.slots[i], RequestKey(s.senders[t].request)) &&
              (s.slots[i].response.Some? ==>
                 ResponseKey(s.slots[i].response.value) == RequestKey(s.senders[t].request))
    ensures forall t :: t in s.senders && s.senders[t].Returned? && s.senders[t].outcome.Responded? ==>
              var response := s.senders[t].outcome.response;
              && (response.Reply? ==> Valid(response.report))
              && ResponseKey(response) == RequestKey(s.senders[t].request)
    ensures forall t :: t in s.senders && s.senders[t].Claiming? && s.senders[t].asleep ==>
              Occupied(s.slots[Index(s.senders[t])])
    ensures forall t :: t in s.senders && s.senders[t].Awaiting? && s.senders[t].asleep ==>
              s.slots[Index(s.senders[t])].response.None?
    ensures multiset(s.incoming) == multiset(s.absorbed) + multiset(s.dispatched)
  {
    RunKeepsInv(INIT, run, s);
    forall i: nat, t: nat | Owns(s, t, i)
      ensures Answers(s.slots[i], RequestKey(s.senders[t].request))
    {
      OwnerFillsSlot(s, t, i);
    }
  }

  /** A report is kept from the event handlers exactly when some sender is waiting for its key
      (or an owner with that key died writing its request). */
  lemma ReportReachesItsSender(s: State, report: Bytes)
    requires Inv(s) && Valid(report)
    ensures var key := ResponseKey(Decode(report));
            var absorbed := Apply(s, Receive(report)).dispatched == s.dispatched;
            absorbed <==>
            || (exists t :: Owns(s, t, SlotIndex(key.feature)) && RequestKey(s.senders[t].request) == key)
            || (SlotIndex(key.feature) in s.leaked && Answers(s.slots[SlotIndex(key.feature)], key))
  {
    var key := ResponseKey(Decode(report));
    var i := SlotIndex(key.feature);
    var s' := Apply(s, Receive(report));
    assert s'.dispatched == s.dispatched <==> Answers(s.slots[i], key) by {
      assert |s.dispatched + [report]| != |s.dispatched|;
    }
    if Answers(s.slots[i], key) && i !in s.leaked {
      var t :| Owns(s, t, i);
      OwnerFillsSlot(s, t, i);
      assert RequestKey(s.senders[t].request) == key;
    }
  }

  /** Delivery: the response a waiting sender's key names is what that sender returns the next time
      it looks, even if its time is up by then. */
  lemma DeliveredResponseIsReturned(s: State, t: nat, report: Bytes, timedOut: bool)
    requires Inv(s) && Valid(report)
    requires t in s.senders && s.senders[t].Awaiting?
    requires s.senders[t].request[2..4] == report[KeyAt(report)..KeyAt(report) + 2]
    ensures var s1 := Apply(s, Receive(report));
            var e := if timedOut then Timeout(t) else Check(t);
            && TypeOk(s1) && Enabled(s1, e)
            && var sender := Apply(s1, e).senders[t];
               && sender.Returned? && sender.request == s.senders[t].request
               && sender.outcome.Responded? && Conveys(report, sender.outcome.response)
  {
    var q, at := s.senders[t].request, KeyAt(report);
    assert q[2..4][0] == q[2] && q[2..4][1] == q[3];
    assert report[at..at + 2][0] == report[at] && report[at..at + 2][1] == report[at + 1];
    DecodeConveys(report);
    StepKeepsInv(s, Receive(report));
    assert SenderOk(s, s.senders[t]);
  }

  /** A response stands for one of these reports. */
  ghost predicate Sent(reports: seq<Bytes>, response: Response) {
    exists i :: 0 <= i < |reports| && Valid(reports[i]) && Conveys(reports[i], response)
  }

  ghost predicate AllSent(s: State)
    requires TypeOk(s)
  {
    && (forall i :: 0 <= i < SLOT_COUNT && s.slots[i].response.Some? ==>
          Sent(s.absorbed, s.slots[i].response.value))
    && (forall t :: t in s.senders && s.senders[t].Returned? && s.senders[t].outcome.Responded? ==>
          Sent(s.absorbed, s.senders[t].outcome.response))
  }

  lemma SentAppend(reports: seq<Bytes>, report: Bytes)
    requires Valid(report)
    ensures forall r :: Sent(reports, r) ==> Sent(reports + [report], r)
    ensures Sent(reports + [report], Decode(report))
  {
    var all := reports + [report];
    DecodeConveys(report);
    assert all[|reports|] == report;
    forall r | Sent(reports, r)
      ensures Sent(all, r)
    {
      var i :| 0 <= i < |reports| && Valid(reports[i]) && Conveys(reports[i], r);
      assert all[i] == reports[i];
    }
  }

  lemma FinishKeepsSent(s: State, t: nat, timedOut: bool)
    requires TypeOk(s) && AllSent(s) && Enabled(s, Timeout(t)) && TypeOk(Finish(s, t, timedOut))
    ensures AllSent(Finish(s, t, timedOut))
  {
  }

  lemma ReceiveKeepsSent(s: State, report: Bytes)
    requires TypeOk(s) && AllSent(s) && Valid(report) && TypeOk(Apply(s, Receive(report)))
    ensures AllSent(Apply(s, Receive(report)))
  {
    var s' := Apply(s, Receive(report));
    if s'.absorbed != s.absorbed {
      SentAppend(s.absorbed, report);
      assert s'.absorbed == s.absorbed + [report];
      assert forall i :: 0 <= i < SLOT_COUNT && s'.slots[i] != s.slots[i] ==>
               s'.slots[i].response == Some(Decode(report));
    }
  }

  lemma StepKeepsSent(s: State, e: Event)
    requires Inv(s) && AllSent(s) && Enabled(s, e) && TypeOk(Apply(s, e))
    ensures AllSent(Apply(s, e))
  {
    match e
    case Receive(report) => ReceiveKeepsSent(s, report);
    case Check(t) => FinishKeepsSent(s, t, false);
    case Timeout(t) => FinishKeepsSent(s, t, true);
    case _ =>
      assert Apply(s, e).absorbed == s.absorbed;
  }

  lemma {:induction false} RunKeepsSent(s: State, run: seq<Event>, s': State)
    requires Inv(s) && AllSent(s) && Leads(s, run, s')
    ensures Inv(s') && AllSent(s')
    decreases |run|
  {
    if run == [] {
    } else {
      StepKeepsInv(s, run[0]);
      StepKeepsSent(s, run[0]);
      RunKeepsSent(Apply(s, run[0]), run[1..], s');
    }
  }

  /** No response is made up: in every run what a sender returns with is what some report that came in
      conveys, and the bytes that report is matched by are those of the request. */
  lemma {:induction false} ResponsesWereReceived(run: seq<Event>, s: State, t: nat)
    requires Leads(INIT, run, s) && t in s.senders && s.senders[t].Returned? && s.senders[t].outcome.Responded?
    ensures exists report ::
              && report in s.incoming && Valid(report)
              && Conveys(report, s.senders[t].outcome.response)
              && |s.senders[t].request| > 3
              && s.senders[t].request[2..4] == report[KeyAt(report)..KeyAt(report) + 2]
  {
    RunKeepsSent(INIT, run, s);
    var response, q := s.senders[t].outcome.response, s.senders[t].request;
    assert Sent(s.absorbed, response) && SenderOk(s, s.senders[t]);
    var report := ReportSent(s.absorbed, response, q);
    assert report in multiset(s.absorbed) && report in multiset(s.incoming);
  }

  lemma ReportSent(reports: seq<Bytes>, response: Response, request: Bytes) returns (report: Bytes)
    requires Sent(reports, response) && Valid(request)
    requires response.Reply? ==> Valid(response.report)
    requires ResponseKey(response) == RequestKey(request)
    ensures report in reports && Valid(report) && Conveys(report, response)
    ensures request[2..4] == report[KeyAt(report)..KeyAt(report) + 2]
  {
    var i :| 0 <= i < |reports| && Valid(reports[i]) && Conveys(reports[i], response);
    report := reports[i];
    ConveyedKey(report, response);
    assert request[2..4] == [request[2], request[3]];
  }

  lemma ConveyedKey(report: Bytes, response: Response)
    requires Valid(report) && Conveys(report, response)
    requires response.Reply? ==> Valid(response.report)
    ensures ResponseKey(response) == Key(report[KeyAt(report)], report[KeyAt(report) + 1])
    ensures report[KeyAt(report)..KeyAt(report) + 2] == [ResponseKey(response).feature, ResponseKey(response).address]
  {
  }

  /** A sender asleep at its claim is never stuck behind a live owner: the owner can always time
      out, and that wakes the sender, whose claim then succeeds. */
  lemma SleeperCanClaim(s: State, t: nat)
    requires Inv(s) && t in s.senders && s.senders[t].Claiming? && s.senders[t].asleep
    requires Index(s.senders[t]) !in s.leaked
    ensures exists owner ::
              && owner != t && Owns(s, owner, Index(s.senders[t]))
              && Enabled(s, Timeout(owner))
              && var s1 := Apply(s, Timeout(owner));
                 TypeOk(s1) && Enabled(s1, Claim(t, true)) && Apply(s1, Claim(t, true)).senders[t].Awaiting?
  {
    var i := Index(s.senders[t]);
    assert SenderOk(s, s.senders[t]);
    var owner :| Owns(s, owner, i);
    StepKeepsInv(s, Timeout(owner));
  }

  // ---------------------------------------------------------------------------------------------
  // Write failures
  // ---------------------------------------------------------------------------------------------

  predicate WriteFails(s: State, e: Event)
    requires TypeOk(s) && Enabled(s, e)
  {
    e.Claim? && !e.writeOk && !Occupied(s.slots[Index(s.senders[e.t])])
  }

  ghost predicate SomeWriteFails(s: State, run: seq<Event>, s': State)
    requires Leads(s, run, s')
    decreases |run|
  {
    run != [] && (WriteFails(s, run[0]) || SomeWriteFails(Apply(s, run[0]), run[1..], s'))
  }

  /** Slots leak exactly in the runs in which the write of a claimed request throws. */
  lemma {:induction false} LeakIffWriteFails(s: State, run: seq<Event>, s': State)
    requires Leads(s, run, s')
    ensures s'.leaked != {} <==> s.leaked != {} || SomeWriteFails(s, run, s')
    decreases |run|
  {
    if run == [] {
    } else {
      LeakIffWriteFails(Apply(s, run[0]), run[1..], s');
    }
  }

  /** A leaked slot is never freed: in no continuation does any sender own it again. */
  lemma {:induction false} LeakIsForever(s: State, run: seq<Event>, s': State, i: nat)
    requires Inv(s) && Leads(s, run, s') && i in s.leaked
    ensures Inv(s') && i in s'.leaked && Occupied(s'.slots[i])
    ensures forall t :: !Owns(s', t, i)
    decreases |run|
  {
    if run != [] {
      StepKeepsInv(s, run[0]);
      LeakIsForever(Apply(s, run[0]), run[1..], s', i);
    } else {
      assert forall t :: t in s.senders ==> SenderOk(s, s.senders[t]);
    }
  }

  /** Exact condition: after a run from the idle device every occupied slot has an owner if and
      only if no write of a claimed request threw. */
  lemma {:induction false} OwnedIffWritesReturn(run: seq<Event>, s: State)
    requires Leads(INIT, run, s)
    ensures TypeOk(s)
    ensures (forall i :: 0 <= i < SLOT_COUNT && Occupied(s.slots[i]) ==> exists t :: Owns(s, t, i))
            <==> !SomeWriteFails(INIT, run, s)
  {
    RunKeepsInv(INIT, run, s);
    LeakIffWriteFails(INIT, run, s);
    if s.leaked != {} {
      var i :| i in s.leaked;
      LeakIsForever(s, [], s, i);
    }
  }

  /** A run that leaks a slot: a call claims it and the write of its request throws. */
  lemma LeakingRun(request: Bytes) returns (run: seq<Event>, s: State)
    requires Valid(request)
    ensures Leads(INIT, run, s) && TypeOk(s)
    ensures var i := SlotIndex(Feature(request));
            Occupied(s.slots[i]) && i in s.leaked && forall t :: !Owns(s, t, i)
  {
    var s1 := Apply(INIT, Call(0, request));
    s := Apply(s1, Claim(0, false));
    run := [Call(0, request), Claim(0, false)];
    assert run[1..] == [Claim(0, false)] && [Claim(0, false)][1..] == [];
    assert Leads(s1, [Claim(0, false)], s);
  }
}
