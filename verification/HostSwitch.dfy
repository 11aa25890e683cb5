/** The controller that follows a keyboard between hosts (tools/host-switch/logi-host-switch.py): it moves
    the monitor to the other host's input and, when the keyboard returns, back again.  Whether a return is
    pending is kept in memory and in a file, so that it survives failures and restarts. */
module HostSwitch {
  import opened Common

  /** `linkState` is the departure mode link_state, otherwise it is host_event. */
  datatype Config = Config(localHost: int, remoteHost: int, linkState: bool, followMouse: bool)

  /** Monitor commands: one is attempted when it is begun, whatever becomes of it. */
  datatype Action = RemoteAttempt | LocalAttempt | LocalSuccess

  /** Where a handler stands; at most one runs at a time.  Each state but Idle is left by the result of one
      call, by its exception, or by a restart. */
  datatype Pc =
    | Idle
    | Saving(value: bool)
    | Saved(value: bool)
    | SendingMouse
    | ToRemote
    | RemoteRunning
    | AskingHost
    | ToLocal
    | LocalRunning

  /** `disk` is the state file; replacing it is atomic. */
  datatype State = State(away: bool, disk: Option<bool>, pc: Pc, log: seq<Action>)

  const INIT := State(false, None, Idle, [])

  datatype Event =
    | Switched(previous: int, target: int, newLinkLoss: bool)
    | Connected
    | Replace
    | Remember
    | MouseSent(ok: bool)
    | BeginRemote
    | EndRemote
    | HostIs(host: int)
    | BeginLocal
    | EndLocal(ok: bool)
    | Raises
    | Restart

  predicate Enabled(c: Config, s: State, e: Event) {
    match e
    case Switched(_, _, newLinkLoss) => s.pc.Idle? && (newLinkLoss ==> c.linkState)
    case Connected => s.pc.Idle?
    case Replace => s.pc.Saving?
    case Remember => s.pc.Saved?
    case MouseSent(_) => s.pc.SendingMouse?
    case BeginRemote => s.pc.ToRemote?
    case EndRemote => s.pc.RemoteRunning?
    case HostIs(_) => s.pc.AskingHost?
    case BeginLocal => s.pc.ToLocal?
    case EndLocal(_) => s.pc.LocalRunning?
    case Raises => s.pc.Saving? || s.pc.AskingHost? || s.pc.ToRemote? || s.pc.ToLocal?
    case Restart => true
  }

  function Apply(c: Config, s: State, e: Event): State
    requires Enabled(c, s, e)
  {
    match e
    case Switched(previous, target, newLinkLoss) =>
      if previous != c.localHost - 1 || target != c.remoteHost - 1 || (s.away && !newLinkLoss) then s
      else s.(pc := Saving(true))
    case Connected => if !s.away then s else s.(pc := if c.linkState then ToLocal else AskingHost)
    case Replace => s.(disk := Some(s.pc.value), pc := Saved(s.pc.value))
    case Remember =>
      s.(away := s.pc.value, pc := if !s.pc.value then Idle else if c.followMouse then SendingMouse else ToRemote)
    case MouseSent(_) => s.(pc := ToRemote)
    case BeginRemote => s.(pc := RemoteRunning, log := s.log + [RemoteAttempt])
    case EndRemote => s.(pc := Idle)
    case HostIs(host) => s.(pc := if host == c.localHost - 1 then ToLocal else Idle)
    case BeginLocal => s.(pc := LocalRunning, log := s.log + [LocalAttempt])
    case EndLocal(ok) => if ok then s.(pc := Saving(false), log := s.log + [LocalSuccess]) else s.(pc := Idle)
    case Raises => s.(pc := Idle)
    case Restart => s.(pc := Idle, away := s.disk.GetOr(false))
  }

  ghost predicate Leads(c: Config, s: State, run: seq<Event>, s': State)
    decreases |run|
  {
    if run == [] then s == s'
    else Enabled(c, s, run[0]) && Leads(c, Apply(c, s, run[0]), run[1..], s')
  }

  // ---------------------------------------------------------------------------------------------
  // The controller
  // ---------------------------------------------------------------------------------------------

  function SaveSteps(ok: bool): seq<Event> {
    if ok then [Replace, Remember] else [Raises]
  }

  /** The steps of switched once it has decided to act. */
  function DepartureSteps(c: Config, saveOk: bool, mouseOk: bool): seq<Event> {
    if !saveOk then [Raises]
    else if c.followMouse then [Replace, Remember, MouseSent(mouseOk), BeginRemote, EndRemote]
    else [Replace, Remember, BeginRemote, EndRemote]
  }

  /** The steps of connected once it has decided to act. */
  function ReturnSteps(inputOk: bool, saveOk: bool): seq<Event> {
    if !inputOk then [BeginLocal, EndLocal(false)] else [BeginLocal, EndLocal(true)] + SaveSteps(saveOk)
  }

  /** The steps of connected; without a host the query raises. */
  function ConnectedSteps(c: Config, s: State, host: Option<int>, inputOk: bool, saveOk: bool): seq<Event> {
    if !s.away then [Connected]
    else if c.linkState then [Connected] + ReturnSteps(inputOk, saveOk)
    else
      match host
      case None => [Connected, Raises]
      case Some(h) =>
        if h != c.localHost - 1 then [Connected, HostIs(h)] else [Connected, HostIs(h)] + ReturnSteps(inputOk, saveOk)
  }

  function SwitchedSteps(c: Config, s: State, previous: int, target: int, newLinkLoss: bool,
                         saveOk: bool, mouseOk: bool): seq<Event>
  {
    if previous != c.localHost - 1 || target != c.remoteHost - 1 || (s.away && !newLinkLoss)
    then [Switched(previous, target, newLinkLoss)]
    else [Switched(previous, target, newLinkLoss)] + DepartureSteps(c, saveOk, mouseOk)
  }

  /** The controller's fields and the file; `log` records the monitor commands.  The parameters say how
      the calls of a handler turn out.  Each handler is a run of the machine: dying within one is stopping
      that run short, and the next Controller reads what the file then holds. */
  class Controller {
    const config: Config
    var away: bool
    var disk: Option<bool>
    var log: seq<Action>

    ghost function View(pc: Pc): State
      reads this
    {
      State(away, disk, pc, log)
    }

    /** A start, or a restart after the process died with the file and the log so far. */
    constructor (config: Config, disk: Option<bool>, log: seq<Action>)
      ensures this.config == config
      ensures forall away, pc :: View(Idle) == Apply(config, State(away, disk, pc, log), Restart)
    {
      this.config, this.disk, this.log := config, disk, log;
      away := disk.GetOr(false);
    }

    method Save(value: bool, ok: bool) returns (raised: bool)
      modifies this`away, this`disk
      ensures raised == !ok
      ensures raised ==> View(Idle) == old(View(Idle))
      ensures !raised ==> away == value && disk == Some(value)
    {
      if !ok {
        return true;
      }
      disk := Some(value);
      away := value;
      return false;
    }

    method OnSwitched(previous: int, target: int, newLinkLoss: bool, saveOk: bool, mouseOk: bool, inputOk: bool)
      returns (raised: bool)
      requires newLinkLoss ==> config.linkState
      modifies this`away, this`disk, this`log
      ensures Leads(config, old(View(Idle)),
                    SwitchedSteps(config, old(View(Idle)), previous, target, newLinkLoss, saveOk, mouseOk), View(Idle))
      ensures var leaves := previous == config.localHost - 1 && target == config.remoteHost - 1 &&
                            (!old(away) || newLinkLoss);
              && (raised <==> leaves && (!saveOk || !inputOk))
              && (leaves && saveOk ==> away && disk == Some(true) && log == old(log) + [RemoteAttempt])
              && (!leaves || !saveOk ==> away == old(away) && disk == old(disk) && log == old(log))
    {
      ghost var s := View(Idle);
      if previous != config.localHost - 1 || target != config.remoteHost - 1 {
        OneStep(config, s, Switched(previous, target, newLinkLoss));
        return false;
      }
      if away && !newLinkLoss {
        OneStep(config, s, Switched(previous, target, newLinkLoss));
        return false;
      }
      DepartureRun(config, s, Switched(previous, target, newLinkLoss), saveOk, mouseOk);
      raised := Save(true, saveOk);
      if raised {
        return;
      }
      // A failure to send the mouse is logged and ignored.
      log := log + [RemoteAttempt];
      return !inputOk;
    }

    method OnConnected(host: Option<int>, inputOk: bool, saveOk: bool) returns (raised: bool)
      modifies this`away, this`disk, this`log
      ensures Leads(config, old(View(Idle)), ConnectedSteps(config, old(View(Idle)), host, inputOk, saveOk), View(Idle))
      ensures var asks := old(away) && !config.linkState;
              var restores := old(away) && (config.linkState || host == Some(config.localHost - 1));
              && (raised <==> (asks && host == None) || (restores && (!inputOk || !saveOk)))
              && log == old(log) + (if !restores then []
                                    else if inputOk then [LocalAttempt, LocalSuccess] else [LocalAttempt])
              && (restores && inputOk && saveOk ==> !away && disk == Some(false))
              && (!(restores && inputOk && saveOk) ==> away == old(away) && disk == old(disk))
    {
      ghost var s := View(Idle);
      ConnectedRun(config, s, host, inputOk, saveOk);
      if !away {
        return false;
      }
      if !config.linkState {
        if host == None {
          return true;
        }
        if host.value != config.localHost - 1 {
          return false;
        }
      }
      log := log + [LocalAttempt];
      if !inputOk {
        return true;
      }
      log := log + [LocalSuccess];
      raised := Save(false, saveOk);
    }

    method OnDisconnected(saveOk: bool, mouseOk: bool, inputOk: bool) returns (raised: bool)
      modifies this`away, this`disk, this`log
      ensures !config.linkState ==> View(Idle) == old(View(Idle)) && !raised
      ensures config.linkState ==>
                Leads(config, old(View(Idle)),
                      SwitchedSteps(config, old(View(Idle)), config.localHost - 1, config.remoteHost - 1, true,
                                    saveOk, mouseOk),
                      View(Idle))
    {
      raised := false;
      if config.linkState {
        raised := OnSwitched(config.localHost - 1, config.remoteHost - 1, true, saveOk, mouseOk, inputOk);
      }
    }
  }

  lemma {:induction false} OneStep(c: Config, s: State, e: Event)
    requires Enabled(c, s, e)
    ensures Leads(c, s, [e], Apply(c, s, e))
  {
    assert [e][1..] == [];
  }

  lemma {:induction false} MoreSteps(c: Config, s: State, e: Event, rest: seq<Event>, s': State)
    requires Enabled(c, s, e) && Leads(c, Apply(c, s, e), rest, s')
    ensures Leads(c, s, [e] + rest, s')
  {
    assert ([e] + rest)[1..] == rest;
  }

  lemma {:induction false} DepartureRun(c: Config, s: State, e: Event, saveOk: bool, mouseOk: bool)
    requires s.pc.Idle? && e.Switched? && Enabled(c, s, e) && Apply(c, s, e).pc.Saving?
    ensures Leads(c, s, [e] + DepartureSteps(c, saveOk, mouseOk),
                  if saveOk then State(true, Some(true), Idle, s.log + [RemoteAttempt]) else s)
  {
    var s1 := Apply(c, s, e);
    if !saveOk {
      OneStep(c, s1, Raises);
      MoreSteps(c, s, e, [Raises], s);
    } else {
      var s2 := Apply(c, s1, Replace);
      var s3 := Apply(c, s2, Remember);
      var s4 := s3.(pc := ToRemote);
      var s5 := Apply(c, s4, BeginRemote);
      var s6 := Apply(c, s5, EndRemote);
      OneStep(c, s5, EndRemote);
      MoreSteps(c, s4, BeginRemote, [EndRemote], s6);
      var rest := [BeginRemote] + [EndRemote];
      if c.followMouse {
        MoreSteps(c, s3, MouseSent(mouseOk), rest, s6);
        rest := [MouseSent(mouseOk)] + rest;
      }
      MoreSteps(c, s2, Remember, rest, s6);
      MoreSteps(c, s1, Replace, [Remember] + rest, s6);
      assert [Replace] + ([Remember] + rest) == DepartureSteps(c, saveOk, mouseOk);
      MoreSteps(c, s, e, DepartureSteps(c, saveOk, mouseOk), s6);
    }
  }

  lemma SaveRun(c: Config, s: State, ok: bool)
    requires s.pc.Saving? && !s.pc.value
    ensures Leads(c, s, SaveSteps(ok), if ok then State(false, Some(false), Idle, s.log) else s.(pc := Idle))
  {
    if ok {
      var s1 := Apply(c, s, Replace);
      OneStep(c, s1, Remember);
      MoreSteps(c, s, Replace, [Remember], Apply(c, s1, Remember));
      assert [Replace] + [Remember] == SaveSteps(ok);
    } else {
      OneStep(c, s, Raises);
    }
  }

  function Returned(s: State, inputOk: bool, saveOk: bool): State {
    var tried := s.(pc := Idle, log := s.log + [LocalAttempt]);
    if !inputOk then tried
    else
      var done := tried.(log := tried.log + [LocalSuccess]);
      if saveOk then done.(away := false, disk := Some(false)) else done
  }

  lemma {:induction false} ReturnRun(c: Config, s: State, inputOk: bool, saveOk: bool)
    requires s.pc.ToLocal?
    ensures Leads(c, s, ReturnSteps(inputOk, saveOk), Returned(s, inputOk, saveOk))
  {
    var s1 := Apply(c, s, BeginLocal);
    var s2 := Apply(c, s1, EndLocal(inputOk));
    if inputOk {
      SaveRun(c, s2, saveOk);
      MoreSteps(c, s1, EndLocal(true), SaveSteps(saveOk), Returned(s, inputOk, saveOk));
      MoreSteps(c, s, BeginLocal, [EndLocal(true)] + SaveSteps(saveOk), Returned(s, inputOk, saveOk));
      assert [BeginLocal] + ([EndLocal(true)] + SaveSteps(saveOk)) == ReturnSteps(inputOk, saveOk);
    } else {
      OneStep(c, s1, EndLocal(false));
      MoreSteps(c, s, BeginLocal, [EndLocal(false)], s2);
      assert [BeginLocal] + [EndLocal(false)] == ReturnSteps(inputOk, saveOk);
    }
  }

  lemma {:induction false} ConnectedRun(c: Config, s: State, host: Option<int>, inputOk: bool, saveOk: bool)
    requires s.pc.Idle?
    ensures Leads(c, s, ConnectedSteps(c, s, host, inputOk, saveOk),
                  if s.away && (c.linkState || host == Some(c.localHost - 1)) then Returned(s, inputOk, saveOk) else s)
  {
    var s1 := Apply(c, s, Connected);
    if !s.away {
      OneStep(c, s, Connected);
    } else if c.linkState {
      ReturnRun(c, s1, inputOk, saveOk);
      MoreSteps(c, s, Connected, ReturnSteps(inputOk, saveOk), Returned(s1, inputOk, saveOk));
    } else if host == None {
      OneStep(c, s1, Raises);
      MoreSteps(c, s, Connected, [Raises], s);
      assert [Connected] + [Raises] == [Connected, Raises];
    } else {
      var s2 := Apply(c, s1, HostIs(host.value));
      if host.value != c.localHost - 1 {
        OneStep(c, s1, HostIs(host.value));
        MoreSteps(c, s, Connected, [HostIs(host.value)], s);
        assert [Connected] + [HostIs(host.value)] == [Connected, HostIs(host.value)];
      } else {
        ReturnRun(c, s2, inputOk, saveOk);
        var rest := ReturnSteps(inputOk, saveOk);
        MoreSteps(c, s1, HostIs(host.value), rest, Returned(s2, inputOk, saveOk));
        MoreSteps(c, s, Connected, [HostIs(host.value)] + rest, Returned(s2, inputOk, saveOk));
        assert [Connected] + ([HostIs(host.value)] + rest) == [Connected, HostIs(host.value)] + rest;
      }
    }
  }

  // ---------------------------------------------------------------------------------------------
  // Safety of every run
  // ---------------------------------------------------------------------------------------------

  /** Whether the remote input has been attempted since the local input last succeeded. */
  predicate ReturnDue(log: seq<Action>) {
    log != [] &&
    (log[|log| - 1].RemoteAttempt? || (!log[|log| - 1].LocalSuccess? && ReturnDue(log[..|log| - 1])))
  }

  lemma {:induction false} ReturnDueAfter(log: seq<Action>, a: Action)
    ensures ReturnDue(log + [a]) <==> a.RemoteAttempt? || (a.LocalAttempt? && ReturnDue(log))
  {
    assert (log + [a])[..|log|] == log;
  }

  predicate Pending(s: State) {
    s.disk.GetOr(false)
  }

  predicate Inv(s: State) {
    && (ReturnDue(s.log) ==> Pending(s))
    && (s.pc.Saved? || s.away == Pending(s))
    && (s.pc.SendingMouse? || s.pc.ToRemote? || s.pc.RemoteRunning? ==> Pending(s))
    && (s.pc.AskingHost? || s.pc.ToLocal? || s.pc.LocalRunning? ==> Pending(s))
    && (s.pc.Saved? ==> s.disk == Some(s.pc.value))
    && ((s.pc.Saving? || s.pc.Saved?) && !s.pc.value ==> !ReturnDue(s.log))
  }

  lemma StepKeepsInv(c: Config, s: State, e: Event)
    requires Inv(s) && Enabled(c, s, e)
    ensures Inv(Apply(c, s, e))
  {
    match e
    case BeginRemote => ReturnDueAfter(s.log, RemoteAttempt);
    case BeginLocal => ReturnDueAfter(s.log, LocalAttempt);
    case EndLocal(_) => ReturnDueAfter(s.log, LocalSuccess);
    case _ =>
  }

  lemma {:induction false} RunKeepsInv(c: Config, s: State, run: seq<Event>, s': State)
    requires Inv(s) && Leads(c, s, run, s')
    ensures Inv(s')
    decreases |run|
  {
    if run == [] {
    } else {
      StepKeepsInv(c, s, run[0]);
      RunKeepsInv(c, Apply(c, s, run[0]), run[1..], s');
    }
  }

  /** The remote input was attempted at i and the local input has not succeeded since. */
  predicate DueSince(log: seq<Action>, i: int) {
    0 <= i < |log| && log[i].RemoteAttempt? && LocalSuccess !in log[i..]
  }

  lemma DueSinceLast(log: seq<Action>, a: Action, i: nat)
    requires i < |log|
    ensures DueSince(log + [a], i) <==> DueSince(log, i) && !a.LocalSuccess?
  {
    assert (log + [a])[i..] == log[i..] + [a];
  }

  lemma DueSinceNow(log: seq<Action>, a: Action)
    ensures DueSince(log + [a], |log|) <==> a.RemoteAttempt?
  {
    assert (log + [a])[|log|..] == [a];
  }

  lemma {:induction false} ReturnDueIs(log: seq<Action>)
    ensures ReturnDue(log) <==> exists i :: DueSince(log, i)
    decreases |log|
  {
    if log == [] {
    } else {
      var n := |log| - 1;
      var front, a := log[..n], log[n];
      assert log == front + [a];
      ReturnDueIs(front);
      ReturnDueAfter(front, a);
      DueSinceNow(front, a);
      forall i: nat | i < n
        ensures DueSince(log, i) <==> DueSince(front, i) && !a.LocalSuccess?
      {
        DueSinceLast(front, a, i);
      }
    }
  }

  /** However calls fail and whenever the controller is restarted: if a remote input was attempted since the
      local input last succeeded, the file says that a return is pending; so a restart remembers it. */
  lemma {:induction false} PendingReturnSurvives(c: Config, run: seq<Event>, s: State)
    requires Leads(c, INIT, run, s)
    ensures (exists i :: DueSince(s.log, i)) ==> s.disk == Some(true) && Apply(c, s, Restart).away
  {
    RunKeepsInv(c, INIT, run, s);
    ReturnDueIs(s.log);
  }

  // ---------------------------------------------------------------------------------------------
  // Departures do not repeat in host_event mode
  // ---------------------------------------------------------------------------------------------

  /** Between any two attempts at the remote input the local input succeeded. */
  ghost predicate Alternates(log: seq<Action>) {
    forall i, j :: 0 <= i < j < |log| && log[i].RemoteAttempt? && log[j].RemoteAttempt? ==>
      exists k :: i < k < j && log[k].LocalSuccess?
  }

  ghost predicate HostEventInv(s: State) {
    && Inv(s)
    && Alternates(s.log)
    && (s.pc.Saving? || s.pc.Saved? || s.pc.SendingMouse? || s.pc.ToRemote? ==> !ReturnDue(s.log))
  }

  lemma {:induction false} AttemptAlternates(log: seq<Action>)
    requires Alternates(log) && !ReturnDue(log)
    ensures Alternates(log + [RemoteAttempt])
  {
    ReturnDueIs(log);
    var more := log + [RemoteAttempt];
    forall i, j | 0 <= i < j < |more| && more[i].RemoteAttempt? && more[j].RemoteAttempt?
      ensures exists k :: i < k < j && more[k].LocalSuccess?
    {
      if j < |log| {
        var k :| i < k < j && log[k].LocalSuccess?;
        assert more[k].LocalSuccess?;
      } else {
        assert !DueSince(log, i);
        var m :| 0 <= m < |log[i..]| && log[i..][m] == LocalSuccess;
        assert more[i + m].LocalSuccess?;
      }
    }
  }

  lemma OtherAlternates(log: seq<Action>, a: Action)
    requires Alternates(log) && !a.RemoteAttempt?
    ensures Alternates(log + [a])
  {
    var more := log + [a];
    forall i, j | 0 <= i < j < |more| && more[i].RemoteAttempt? && more[j].RemoteAttempt?
      ensures exists k :: i < k < j && more[k].LocalSuccess?
    {
      var k :| i < k < j && log[k].LocalSuccess?;
      assert more[k].LocalSuccess?;
    }
  }

  lemma StepKeepsHostEventInv(c: Config, s: State, e: Event)
    requires !c.linkState && HostEventInv(s) && Enabled(c, s, e)
    ensures HostEventInv(Apply(c, s, e))
  {
    StepKeepsInv(c, s, e);
    match e
    case BeginRemote => AttemptAlternates(s.log);
    case BeginLocal => OtherAlternates(s.log, LocalAttempt);
    case EndLocal(ok) =>
      OtherAlternates(s.log, LocalSuccess);
      ReturnDueAfter(s.log, LocalSuccess);
    case _ =>
  }

  lemma {:induction false} RunKeepsHostEventInv(c: Config, s: State, run: seq<Event>, s': State)
    requires !c.linkState && HostEventInv(s) && Leads(c, s, run, s')
    ensures HostEventInv(s')
    decreases |run|
  {
    if run == [] {
    } else {
      StepKeepsHostEventInv(c, s, run[0]);
      RunKeepsHostEventInv(c, Apply(c, s, run[0]), run[1..], s');
    }
  }

  /** In host_event mode the monitor is sent to the remote input at most once before it is successfully
      brought back, in any run with any failures and restarts. */
  lemma {:induction false} NoRepeatedDeparture(c: Config, run: seq<Event>, s: State)
    requires !c.linkState && Leads(c, INIT, run, s)
    ensures Alternates(s.log)
  {
    RunKeepsHostEventInv(c, INIT, run, s);
  }

  /** In link_state mode it can be repeated, whether or not the mouse follows: every observed link loss
      departs again. */
  lemma LinkStateRepeats(c: Config) returns (run: seq<Event>, s: State)
    requires c.linkState
    ensures Leads(c, INIT, run, s) && s.log == [RemoteAttempt, RemoteAttempt] && !Alternates(s.log)
  {
    var e := Switched(c.localHost - 1, c.remoteHost - 1, true);
    var once := [e] + DepartureSteps(c, true, true);
    var s1 := State(true, Some(true), Idle, [] + [RemoteAttempt]);
    s := State(true, Some(true), Idle, s1.log + [RemoteAttempt]);
    run := once + once;
    DepartureRun(c, INIT, e, true, true);
    DepartureRun(c, s1, e, true, true);
    LeadsConcat(c, INIT, once, s1, once, s);
    assert s.log == [RemoteAttempt, RemoteAttempt];
    assert s.log[0].RemoteAttempt? && s.log[1].RemoteAttempt?;
  }

  ghost predicate AlwaysAlternates(c: Config) {
    forall run, s :: Leads(c, INIT, run, s) ==> Alternates(s.log)
  }

  /** Exact condition on the configuration: in every run any two attempts at the remote input have a
      successful local input between them if and only if the departure mode is not link_state. */
  lemma DeparturesAlternateIff(c: Config)
    ensures AlwaysAlternates(c) <==> !c.linkState
  {
    if c.linkState {
      var run, s := LinkStateRepeats(c);
      assert Leads(c, INIT, run, s) && !Alternates(s.log);
    } else {
      forall run, s | Leads(c, INIT, run, s)
        ensures Alternates(s.log)
      {
        NoRepeatedDeparture(c, run, s);
      }
    }
  }

  /** Whether the remote input is attempted at some point while a return is due. */
  predicate DepartsAgain(c: Config, s: State, run: seq<Event>)
    decreases |run|
  {
    run != [] && Enabled(c, s, run[0]) &&
    ((run[0].BeginRemote? && ReturnDue(s.log)) || DepartsAgain(c, Apply(c, s, run[0]), run[1..]))
  }

  lemma AlternatesPrefix(log: seq<Action>, a: Action)
    requires Alternates(log + [a])
    ensures Alternates(log)
  {
    var more := log + [a];
    forall i, j | 0 <= i < j < |log| && log[i].RemoteAttempt? && log[j].RemoteAttempt?
      ensures exists k :: i < k < j && log[k].LocalSuccess?
    {
      assert more[i].RemoteAttempt? && more[j].RemoteAttempt?;
      var k :| i < k < j && more[k].LocalSuccess?;
      assert log[k].LocalSuccess?;
    }
  }

  lemma {:induction false} DueAttemptBreaks(log: seq<Action>)
    requires ReturnDue(log)
    ensures !Alternates(log + [RemoteAttempt])
  {
    ReturnDueIs(log);
    var more := log + [RemoteAttempt];
    var i :| DueSince(log, i);
    assert more[i].RemoteAttempt? && more[|log|].RemoteAttempt?;
    forall k | i < k < |log|
      ensures !more[k].LocalSuccess?
    {
      assert log[i..][k - i] == log[k];
    }
  }

  lemma StepAlternatesIff(c: Config, s: State, e: Event)
    requires Enabled(c, s, e)
    ensures Alternates(Apply(c, s, e).log) <==> Alternates(s.log) && !(e.BeginRemote? && ReturnDue(s.log))
  {
    var t := Apply(c, s, e);
    if t.log != s.log {
      var a := t.log[|t.log| - 1];
      assert t.log == s.log + [a];
      if Alternates(t.log) {
        AlternatesPrefix(s.log, a);
      }
      if a.RemoteAttempt? {
        if ReturnDue(s.log) {
          DueAttemptBreaks(s.log);
        } else if Alternates(s.log) {
          AttemptAlternates(s.log);
        }
      } else if Alternates(s.log) {
        OtherAlternates(s.log, a);
      }
    }
  }

  /** Exact condition on runs, in either mode: departures alternate with successful returns if and only if
      the remote input is never attempted while a return is due. */
  lemma {:induction false} RunAlternatesIff(c: Config, s: State, run: seq<Event>, s': State)
    requires Leads(c, s, run, s')
    ensures Alternates(s'.log) <==> Alternates(s.log) && !DepartsAgain(c, s, run)
    decreases |run|
  {
    if run == [] {
    } else {
      StepAlternatesIff(c, s, run[0]);
      RunAlternatesIff(c, Apply(c, s, run[0]), run[1..], s');
    }
  }

  lemma {:induction false} LeadsConcat(c: Config, s: State, a: seq<Event>, t: State, b: seq<Event>, u: State)
    requires Leads(c, s, a, t) && Leads(c, t, b, u)
    ensures Leads(c, s, a + b, u)
    decreases |a|
  {
    if a == [] {
      assert a + b == b;
    } else {
      LeadsConcat(c, Apply(c, s, a[0]), a[1..], t, b, u);
      assert (a + b)[1..] == a[1..] + b;
    }
  }

  /** Recovery: from any reachable idle state with a return pending, one connected event whose calls all
      succeed restores the local input and clears the file. */
  lemma {:induction false} ReturnRecovers(c: Config, run: seq<Event>, s: State)
    requires Leads(c, INIT, run, s) && s.pc.Idle? && s.disk == Some(true)
    ensures exists t :: Leads(c, s, ConnectedSteps(c, s, Some(c.localHost - 1), true, true), t) &&
                        !t.away && t.disk == Some(false) && t.log == s.log + [LocalAttempt, LocalSuccess]
  {
    RunKeepsInv(c, INIT, run, s);
    ConnectedRun(c, s, Some(c.localHost - 1), true, true);
    var t := Returned(s, true, true);
    assert t.log == s.log + [LocalAttempt, LocalSuccess];
  }

  // ---------------------------------------------------------------------------------------------
  // Departures happen
  // ---------------------------------------------------------------------------------------------

  /** An event of the handler that is under way: not a failure, a restart or the start of another one. */
  predicate GoesOn(e: Event) {
    !e.Raises? && !e.Restart? && !e.Switched? && !e.Connected?
  }

  /** How far a departure is that began with this log: the input is attempted last, after the file says away. */
  predicate Departing(log: seq<Action>, s: State) {
    match s.pc
    case Saving(value) => value && s.log == log
    case Saved(value) => value && s.disk == Some(true) && s.log == log
    case SendingMouse => s.away && s.disk == Some(true) && s.log == log
    case ToRemote => s.away && s.disk == Some(true) && s.log == log
    case RemoteRunning => s.away && s.disk == Some(true) && s.log == log + [RemoteAttempt]
    case Idle => s.away && s.disk == Some(true) && s.log == log + [RemoteAttempt]
    case _ => false
  }

  lemma {:induction false} DepartsOn(c: Config, log: seq<Action>, s: State, run: seq<Event>, s': State)
    requires Departing(log, s) && Leads(c, s, run, s') && forall e :: e in run ==> GoesOn(e)
    ensures Departing(log, s')
    decreases |run|
  {
    if run == [] {
    } else {
      assert GoesOn(run[0]);
      DepartsOn(c, log, Apply(c, s, run[0]), run[1..], s');
    }
  }

  /** From any idle state that is not away, a switch from the local to the remote host that nothing stops
      attempts the remote input once, with the file already saying away. */
  lemma DepartureCompletes(c: Config, s: State, run: seq<Event>, s': State)
    requires s.pc.Idle? && !s.away
    requires Leads(c, s, [Switched(c.localHost - 1, c.remoteHost - 1, false)] + run, s') && s'.pc.Idle?
    requires forall e :: e in run ==> GoesOn(e)
    ensures s'.away && s'.disk == Some(true) && s'.log == s.log + [RemoteAttempt]
  {
    var e := Switched(c.localHost - 1, c.remoteHost - 1, false);
    assert ([e] + run)[1..] == run;
    DepartsOn(c, s.log, Apply(c, s, e), run, s');
  }

  /** Until it has ended it can go on, and it ends within five steps. */
  lemma DepartureCanComplete(c: Config, s: State) returns (run: seq<Event>, s': State)
    requires s.pc.Idle? && !s.away
    ensures Leads(c, s, [Switched(c.localHost - 1, c.remoteHost - 1, false)] + run, s') && s'.pc.Idle?
    ensures |run| <= 5 && forall e :: e in run ==> GoesOn(e)
  {
    var e := Switched(c.localHost - 1, c.remoteHost - 1, false);
    run := DepartureSteps(c, true, true);
    s' := State(true, Some(true), Idle, s.log + [RemoteAttempt]);
    DepartureRun(c, s, e, true, true);
  }

  /** A switch between any other two hosts does nothing, nor does one while a return is pending, unless it
      is a link loss. */
  lemma OtherSwitchesAreIgnored(c: Config, s: State, previous: int, target: int, newLinkLoss: bool)
    requires Enabled(c, s, Switched(previous, target, newLinkLoss))
    ensures Apply(c, s, Switched(previous, target, newLinkLoss)) == s <==>
            previous != c.localHost - 1 || target != c.remoteHost - 1 || (s.away && !newLinkLoss)
  {
  }
}
