/** Connection hooks: the commands a device runs when its link comes and goes
    (src/logid/Device.cpp), queued for a detached worker thread (src/logid/util/CommandQueue.cpp). */
module ConnectionHooks {
  import opened Common

  datatype Kind = Connect | Disconnect

  datatype Hook = Hook(command: string, args: Option<seq<string>>)

  datatype Hooks = Hooks(onConnect: Option<Hook>, onDisconnect: Option<Hook>)

  datatype Job = Job(kind: Kind, command: seq<string>)

  /** Where the worker thread stands: about to lock the queue, about to spawn, waiting for a child. */
  datatype Worker = Idle | Spawning(job: Job) | Waiting(job: Job)

  datatype Phase = NotMade | Awake | Asleep | Failed

  /** The device's link, its queue, and what has happened so far: the changes of the link, the jobs
      accepted by the queue, the jobs a worker took from it and whether spawning them succeeded. */
  datatype State = State(
    phase: Phase,
    jobs: seq<Job>,
    running: bool,
    workers: seq<Worker>,
    changes: seq<Kind>,
    accepted: seq<Job>,
    taken: seq<Job>,
    spawned: seq<bool>)

  const INIT := State(NotMade, [], false, [], [], [], [], [])

  /** `threadOk` is whether the thread could be created should this call need one. */
  datatype Event =
    | Make(threadOk: bool)
    | Sleep(threadOk: bool)
    | Wakeup(threadOk: bool)
    | Take(w: nat)
    | Spawn(w: nat, ok: bool)
    | Reap(w: nat)

  predicate Enabled(s: State, e: Event) {
    match e
    case Make(_) => s.phase.NotMade?
    case Sleep(_) => s.phase.Awake? || s.phase.Asleep?
    case Wakeup(_) => s.phase.Awake? || s.phase.Asleep?
    case Take(w) => w < |s.workers| && s.workers[w].Idle?
    case Spawn(w, _) => w < |s.workers| && s.workers[w].Spawning?
    case Reap(w) => w < |s.workers| && s.workers[w].Waiting?
  }

  /** The argument vector of a hook; empty when there is nothing to run. */
  function CommandFor(hooks: Hooks, kind: Kind): seq<string> {
    match if kind.Connect? then hooks.onConnect else hooks.onDisconnect
    case None => []
    case Some(hook) => if hook.command == "" then [] else [hook.command] + hook.args.GetOr([])
  }

  /** `command` is this hook's own command followed by its arguments. */
  predicate Runs(hook: Option<Hook>, command: seq<string>) {
    && hook.Some? && hook.value.command != ""
    && command != [] && command[0] == hook.value.command
    && |command| == 1 + (if hook.value.args.Some? then |hook.value.args.value| else 0)
    && forall i :: 1 <= i < |command| ==> command[i] == hook.value.args.value[i - 1]
  }

  /** on_connect's command when the link comes, on_disconnect's when it goes. */
  predicate Serves(hooks: Hooks, job: Job) {
    && (job.kind == Connect ==> Runs(hooks.onConnect, job.command))
    && (job.kind == Disconnect ==> Runs(hooks.onDisconnect, job.command))
  }

  predicate Configured(hooks: Hooks, kind: Kind) {
    match kind
    case Connect => hooks.onConnect.Some? && hooks.onConnect.value.command != ""
    case Disconnect => hooks.onDisconnect.Some? && hooks.onDisconnect.value.command != ""
  }

  /** What is queued for a change is the command of its hook, if that is configured. */
  lemma CommandServes(hooks: Hooks, kind: Kind)
    ensures Runnable(CommandFor(hooks, kind)) <==> Configured(hooks, kind)
    ensures Configured(hooks, kind) ==> Serves(hooks, Job(kind, CommandFor(hooks, kind)))
  {
  }

  /** There is only one such command. */
  lemma ServesOne(hooks: Hooks, a: Job, b: Job)
    requires a.kind == b.kind && Serves(hooks, a) && Serves(hooks, b)
    ensures a == b
  {
    assert forall i :: 0 <= i < |a.command| ==> a.command[i] == b.command[i];
  }

  predicate Runnable(command: seq<string>) {
    command != [] && command[0] != ""
  }

  /** CommandQueue::run: the job stays queued even when the thread for it could not be created. */
  function Submit(s: State, job: Job, threadOk: bool): State {
    if !Runnable(job.command) then s
    else
      var t := s.(jobs := s.jobs + [job], accepted := s.accepted + [job]);
      if s.running || !threadOk then t else t.(running := true, workers := s.workers + [Idle])
  }

  predicate Throws(s: State, job: Job, threadOk: bool) {
    Runnable(job.command) && !s.running && !threadOk
  }

  function Change(hooks: Hooks, s: State, kind: Kind, phase: Phase, threadOk: bool): State {
    Submit(s.(phase := phase, changes := s.changes + [kind]), Job(kind, CommandFor(hooks, kind)), threadOk)
  }

  function Apply(hooks: Hooks, s: State, e: Event): State
    requires Enabled(s, e)
  {
    match e
    case Make(threadOk) =>
      var throws := Throws(s, Job(Connect, CommandFor(hooks, Connect)), threadOk);
      Change(hooks, s, Connect, if throws then Failed else Awake, threadOk)
    case Sleep(threadOk) => if s.phase.Awake? then Change(hooks, s, Disconnect, Asleep, threadOk) else s
    case Wakeup(threadOk) => if s.phase.Asleep? then Change(hooks, s, Connect, Awake, threadOk) else s
    case Take(w) =>
      if s.jobs == [] then s.(running := false, workers := s.workers[..w] + s.workers[w + 1..])
      else s.(jobs := s.jobs[1..], taken := s.taken + [s.jobs[0]], workers := s.workers[w := Spawning(s.jobs[0])])
    case Spawn(w, ok) =>
      s.(spawned := s.spawned + [ok], workers := s.workers[w := if ok then Waiting(s.workers[w].job) else Idle])
    case Reap(w) => s.(workers := s.workers[w := Idle])
  }

  /** The queue's fields; the ghost fields are the worker threads that its calls create and the history
      of jobs. */
  class CommandQueue {
    var jobs: seq<Job>
    var running: bool
    ghost var workers: seq<Worker>
    ghost var accepted: seq<Job>
    ghost var taken: seq<Job>
    ghost var spawned: seq<bool>

    ghost function View(phase: Phase, changes: seq<Kind>): State
      reads this
    {
      State(phase, jobs, running, workers, changes, accepted, taken, spawned)
    }

    constructor ()
      ensures View(NotMade, []) == INIT
    {
      jobs, running, workers := [], false, [];
      accepted, taken, spawned := [], [], [];
    }

    method Run(job: Job, threadOk: bool) returns (throws: bool)
      modifies this
      ensures forall p, c :: View(p, c) == Submit(old(View(p, c)), job, threadOk)
      ensures forall p, c :: throws <==> Throws(old(View(p, c)), job, threadOk)
    {
      if job.command == [] || job.command[0] == "" {
        return false;
      }
      jobs := jobs + [job];
      accepted := accepted + [job];
      if running {
        return false;
      }
      running := true;
      if threadOk {
        workers := workers + [Idle];
        return false;
      } else {
        running := false;
        return true;
      }
    }

    /** The locked part of the worker's loop; without a job the thread ends. */
    method TakeJob(ghost w: nat) returns (job: Option<Job>)
      requires w < |workers| && workers[w].Idle?
      modifies this
      ensures job == if old(jobs) == [] then None else Some(old(jobs)[0])
      ensures forall h, p, c :: View(p, c) == Apply(h, old(View(p, c)), Take(w))
    {
      if jobs == [] {
        running := false;
        workers := workers[..w] + workers[w + 1..];
        return None;
      }
      job := Some(jobs[0]);
      jobs := jobs[1..];
      taken := taken + [job.value];
      workers := workers[w := Spawning(job.value)];
    }

    /** The rest of the loop body: spawn, and wait for the child if there is one. */
    method SpawnJob(ghost w: nat, ok: bool) returns (waits: bool)
      requires w < |workers| && workers[w].Spawning?
      modifies this
      ensures waits == ok
      ensures forall h, p, c :: View(p, c) == Apply(h, old(View(p, c)), Spawn(w, ok))
    {
      spawned := spawned + [ok];
      if !ok {
        workers := workers[w := Idle];
        return false;
      }
      workers := workers[w := Waiting(workers[w].job)];
      return true;
    }

    ghost method WaitForChild(w: nat)
      requires w < |workers| && workers[w].Waiting?
      modifies this
      ensures forall h, p, c :: View(p, c) == Apply(h, old(View(p, c)), Reap(w))
    {
      workers := workers[w := Idle];
    }
  }

  /** The part of a device that follows its link; sleep and wakeup hold one lock while they change it
      and queue the hook. */
  class Link {
    const hooks: Hooks
    const queue: CommandQueue
    var phase: Phase
    ghost var changes: seq<Kind>

    ghost function View(): State
      reads this, queue
    {
      queue.View(phase, changes)
    }

    constructor (hooks: Hooks)
      ensures this.hooks == hooks && fresh(queue) && View() == INIT && Inv(hooks, View())
    {
      this.hooks := hooks;
      queue := new CommandQueue();
      phase, changes := NotMade, [];
    }

    method RunConnectionHook(kind: Kind, threadOk: bool) returns (throws: bool)
      modifies queue
      ensures View() == Submit(old(View()), Job(kind, CommandFor(hooks, kind)), threadOk)
      ensures forall job: Job :: job.kind == kind && Serves(hooks, job) ==>
                View() == Submit(old(View()), job, threadOk)
      ensures !Configured(hooks, kind) ==> View() == old(View())
      ensures throws <==> Configured(hooks, kind) && !old(queue.running) && !threadOk
    {
      CommandServes(hooks, kind);
      forall job: Job | job.kind == kind && Serves(hooks, job)
        ensures job == Job(kind, CommandFor(hooks, kind))
      {
        ServesOne(hooks, job, Job(kind, CommandFor(hooks, kind)));
      }
      var hook := if kind.Connect? then hooks.onConnect else hooks.onDisconnect;
      if hook.None? || hook.value.command == "" {
        return false;
      }
      var command := [hook.value.command];
      if hook.value.args.Some? {
        command := command + hook.value.args.value;
      }
      assert command == CommandFor(hooks, kind);
      throws := queue.Run(Job(kind, command), threadOk);
    }

    /** Device::make, after the constructor. */
    method OnMake(threadOk: bool)
      requires Inv(hooks, View()) && Enabled(View(), Make(threadOk))
      modifies this, queue
      ensures View() == Apply(hooks, old(View()), Make(threadOk)) && Inv(hooks, View())
    {
      StepKeepsInv(hooks, View(), Make(threadOk));
      phase := Awake;
      changes := changes + [Connect];
      var throws := RunConnectionHook(Connect, threadOk);
      if throws {
        phase := Failed;
      }
    }

    method OnSleep(threadOk: bool)
      requires Inv(hooks, View()) && Enabled(View(), Sleep(threadOk))
      modifies this, queue
      ensures View() == Apply(hooks, old(View()), Sleep(threadOk)) && Inv(hooks, View())
    {
      StepKeepsInv(hooks, View(), Sleep(threadOk));
      if phase != Awake {
        return;
      }
      phase := Asleep;
      changes := changes + [Disconnect];
      var _ := RunConnectionHook(Disconnect, threadOk);
    }

    method OnWakeup(threadOk: bool)
      requires Inv(hooks, View()) && Enabled(View(), Wakeup(threadOk))
      modifies this, queue
      ensures View() == Apply(hooks, old(View()), Wakeup(threadOk)) && Inv(hooks, View())
    {
      StepKeepsInv(hooks, View(), Wakeup(threadOk));
      if phase == Asleep {
        phase := Awake;
        changes := changes + [Connect];
        var _ := RunConnectionHook(Connect, threadOk);
      }
    }
  }

  // ---------------------------------------------------------------------------------------------
  // What every step keeps
  // ---------------------------------------------------------------------------------------------

  function KindAt(i: nat): Kind {
    if i % 2 == 0 then Connect else Disconnect
  }

  predicate Alternates(kinds: seq<Kind>) {
    forall i :: 0 <= i < |kinds| ==> kinds[i] == KindAt(i)
  }

  /** The jobs that these changes of the link ask for. */
  function JobsFor(hooks: Hooks, changes: seq<Kind>): seq<Job> {
    if changes == [] then []
    else
      var kind := changes[|changes| - 1];
      var job := Job(kind, CommandFor(hooks, kind));
      JobsFor(hooks, changes[..|changes| - 1]) + if Runnable(job.command) then [job] else []
  }

  predicate LinkInv(s: State) {
    && Alternates(s.changes)
    && (s.phase.NotMade? <==> s.changes == [])
    && (s.phase.Awake? ==> |s.changes| % 2 == 1)
    && (s.phase.Asleep? ==> |s.changes| % 2 == 0)
  }

  /** One worker at most, there exactly while `running`, and its job is the last one taken. */
  predicate WorkerInv(s: State) {
    && |s.workers| == (if s.running then 1 else 0)
    && |s.spawned| == |s.taken| - (if s.running && s.workers[0].Spawning? then 1 else 0)
    && (s.running && !s.workers[0].Idle? ==> s.taken != [] && s.workers[0].job == s.taken[|s.taken| - 1])
    && (s.running && s.workers[0].Waiting? ==> s.spawned[|s.spawned| - 1])
  }

  predicate Inv(hooks: Hooks, s: State) {
    && LinkInv(s)
    && WorkerInv(s)
    && s.accepted == s.taken + s.jobs
    && s.accepted == JobsFor(hooks, s.changes)
  }

  lemma ChangeKeepsLink(hooks: Hooks, s: State, kind: Kind, phase: Phase, threadOk: bool)
    requires LinkInv(s) && kind == KindAt(|s.changes|) && !phase.NotMade?
    requires phase.Awake? ==> kind.Connect?
    requires phase.Asleep? ==> kind.Disconnect?
    ensures LinkInv(Change(hooks, s, kind, phase, threadOk))
  {
    var t := Change(hooks, s, kind, phase, threadOk);
    assert t.changes == s.changes + [kind] && t.phase == phase;
  }

  lemma SubmitKeepsWorker(s: State, job: Job, threadOk: bool)
    requires WorkerInv(s)
    ensures WorkerInv(Submit(s, job, threadOk))
  {
  }

  lemma SubmitKeepsFifo(s: State, job: Job, threadOk: bool)
    requires s.accepted == s.taken + s.jobs
    ensures var t := Submit(s, job, threadOk);
            && t.accepted == t.taken + t.jobs
            && t.accepted == s.accepted + if Runnable(job.command) then [job] else []
  {
    assert (s.taken + s.jobs) + [job] == s.taken + (s.jobs + [job]);
    assert s.accepted + [] == s.accepted;
  }

  lemma ChangeKeepsInv(hooks: Hooks, s: State, kind: Kind, phase: Phase, threadOk: bool)
    requires Inv(hooks, s) && kind == KindAt(|s.changes|) && !phase.NotMade?
    requires phase.Awake? ==> kind.Connect?
    requires phase.Asleep? ==> kind.Disconnect?
    ensures Inv(hooks, Change(hooks, s, kind, phase, threadOk))
  {
    var t := s.(phase := phase, changes := s.changes + [kind]);
    var job := Job(kind, CommandFor(hooks, kind));
    ChangeKeepsLink(hooks, s, kind, phase, threadOk);
    SubmitKeepsWorker(t, job, threadOk);
    SubmitKeepsFifo(t, job, threadOk);
    assert t.changes[..|t.changes| - 1] == s.changes;
  }

  lemma TakeKeepsInv(hooks: Hooks, s: State, w: nat)
    requires Inv(hooks, s) && Enabled(s, Take(w))
    ensures Inv(hooks, Apply(hooks, s, Take(w)))
  {
    if s.jobs != [] {
      assert s.taken + s.jobs == (s.taken + [s.jobs[0]]) + s.jobs[1..];
    }
  }

  lemma StepKeepsInv(hooks: Hooks, s: State, e: Event)
    requires Inv(hooks, s) && Enabled(s, e)
    ensures Inv(hooks, Apply(hooks, s, e))
  {
    match e
    case Make(threadOk) =>
      var throws := Throws(s, Job(Connect, CommandFor(hooks, Connect)), threadOk);
      ChangeKeepsInv(hooks, s, Connect, if throws then Failed else Awake, threadOk);
    case Sleep(threadOk) =>
      if s.phase.Awake? {
        ChangeKeepsInv(hooks, s, Disconnect, Asleep, threadOk);
      }
    case Wakeup(threadOk) =>
      if s.phase.Asleep? {
        ChangeKeepsInv(hooks, s, Connect, Awake, threadOk);
      }
    case Take(w) =>
      TakeKeepsInv(hooks, s, w);
    case Spawn(_, _) =>
    case Reap(_) =>
  }

  ghost predicate Leads(hooks: Hooks, s: State, run: seq<Event>, s': State)
    decreases |run|
  {
    if run == [] then s == s'
    else Enabled(s, run[0]) && Leads(hooks, Apply(hooks, s, run[0]), run[1..], s')
  }

  lemma {:induction false} RunKeepsInv(hooks: Hooks, s: State, run: seq<Event>, s': State)
    requires Inv(hooks, s) && Leads(hooks, s, run, s')
    ensures Inv(hooks, s')
    decreases |run|
  {
    if run == [] {
    } else {
      StepKeepsInv(hooks, s, run[0]);
      RunKeepsInv(hooks, Apply(hooks, s, run[0]), run[1..], s');
    }
  }

  /** The machine's own claims, for any interleaving, any hooks and any failures: jobs leave the queue in
      the order they were accepted, each is what a change of the link asked for, no two workers and so no
      two children exist at once, and the flag says whether there is a worker. */
  lemma {:induction false} QueueIsFifo(hooks: Hooks, run: seq<Event>, s: State)
    requires Leads(hooks, INIT, run, s)
    ensures s.taken + s.jobs == s.accepted == JobsFor(hooks, s.changes)
    ensures Alternates(s.changes)
    ensures |s.workers| <= 1 && (s.running <==> s.workers != [])
  {
    RunKeepsInv(hooks, INIT, run, s);
  }

  function CountJobs(jobs: seq<Job>, kind: Kind): nat {
    if jobs == [] then 0 else CountJobs(jobs[..|jobs| - 1], kind) + if jobs[|jobs| - 1].kind == kind then 1 else 0
  }

  function CountChanges(changes: seq<Kind>, kind: Kind): nat {
    if changes == [] then 0
    else CountChanges(changes[..|changes| - 1], kind) + if changes[|changes| - 1] == kind then 1 else 0
  }

  lemma {:induction false} JobsForServe(hooks: Hooks, changes: seq<Kind>)
    ensures forall job :: job in JobsFor(hooks, changes) ==> Serves(hooks, job)
    ensures forall kind :: CountJobs(JobsFor(hooks, changes), kind) ==
                           if Configured(hooks, kind) then CountChanges(changes, kind) else 0
    decreases |changes|
  {
    if changes == [] {
    } else {
      var n := |changes| - 1;
      var front, job := JobsFor(hooks, changes[..n]), Job(changes[n], CommandFor(hooks, changes[n]));
      JobsForServe(hooks, changes[..n]);
      CommandServes(hooks, changes[n]);
      assert (front + [job])[..|front|] == front && front + [] == front;
    }
  }

  /** In every run each job, accepted or taken, runs the command of its hook with its arguments; and the
      jobs of a kind are as many as the changes of the link to that side, if its hook is configured. */
  lemma {:induction false} JobsAreHooks(hooks: Hooks, run: seq<Event>, s: State)
    requires Leads(hooks, INIT, run, s)
    ensures forall job :: job in s.accepted ==> Serves(hooks, job)
    ensures forall job :: job in s.taken ==> Serves(hooks, job)
    ensures forall kind :: CountJobs(s.accepted, kind) ==
                           if Configured(hooks, kind) then CountChanges(s.changes, kind) else 0
  {
    RunKeepsInv(hooks, INIT, run, s);
    JobsForServe(hooks, s.changes);
    forall job | job in s.taken
      ensures job in s.accepted
    {
      assert s.accepted == s.taken + s.jobs;
    }
  }

  /** The last event of the link's own in a run, if any. */
  function LastLink(run: seq<Event>): Option<Event> {
    if run == [] then None
    else
      var e := run[|run| - 1];
      if e.Make? || e.Sleep? || e.Wakeup? then Some(e) else LastLink(run[..|run| - 1])
  }

  lemma {:induction false} LastLinkTail(run: seq<Event>)
    requires run != []
    ensures LastLink(run) ==
            if LastLink(run[1..]).Some? then LastLink(run[1..])
            else if run[0].Make? || run[0].Sleep? || run[0].Wakeup? then Some(run[0]) else None
    decreases |run|
  {
    if |run| == 1 {
    } else {
      var n := |run| - 1;
      LastLinkTail(run[..n]);
      assert run[1..][..n - 1] == run[..n][1..] && run[1..][n - 1] == run[n];
    }
  }

  /** What the device makes of its link's last event: awake after a wake-up, asleep after a sleep. */
  predicate Reflects(e: Option<Event>, phase: Phase) {
    match e
    case None => phase.NotMade?
    case Some(Make(_)) => phase.Awake? || phase.Failed?
    case Some(Sleep(_)) => phase.Asleep?
    case Some(Wakeup(_)) => phase.Awake?
    case Some(_) => false
  }

  lemma {:induction false} RunReflects(hooks: Hooks, s: State, run: seq<Event>, s': State)
    requires Leads(hooks, s, run, s')
    ensures if LastLink(run).None? then s'.phase == s.phase else Reflects(LastLink(run), s'.phase)
    decreases |run|
  {
    if run == [] {
    } else {
      LastLinkTail(run);
      RunReflects(hooks, Apply(hooks, s, run[0]), run[1..], s');
    }
  }

  /** After any run the device is awake exactly when its link's last event left it so, and the changes it
      has made since the start tell the same. */
  lemma {:induction false} LinkIsFollowed(hooks: Hooks, run: seq<Event>, s: State)
    requires Leads(hooks, INIT, run, s)
    ensures Reflects(LastLink(run), s.phase)
    ensures s.phase.Awake? ==> |s.changes| % 2 == 1
    ensures s.phase.Asleep? ==> |s.changes| % 2 == 0
    ensures forall i :: 0 <= i < |s.changes| ==> s.changes[i] == if i % 2 == 0 then Connect else Disconnect
  {
    RunReflects(hooks, INIT, run, s);
    RunKeepsInv(hooks, INIT, run, s);
  }

  // ---------------------------------------------------------------------------------------------
  // Both hooks configured
  // ---------------------------------------------------------------------------------------------

  predicate BothConfigured(hooks: Hooks) {
    Configured(hooks, Connect) && Configured(hooks, Disconnect)
  }

  predicate JobsAlternate(jobs: seq<Job>) {
    forall i :: 0 <= i < |jobs| ==> jobs[i].kind == KindAt(i)
  }

  lemma {:induction false} OneJobPerChange(hooks: Hooks, changes: seq<Kind>)
    requires BothConfigured(hooks)
    ensures |JobsFor(hooks, changes)| == |changes|
    ensures forall i :: 0 <= i < |changes| ==> JobsFor(hooks, changes)[i].kind == changes[i]
    decreases |changes|
  {
    if changes == [] {
    } else {
      OneJobPerChange(hooks, changes[..|changes| - 1]);
      CommandServes(hooks, changes[|changes| - 1]);
    }
  }

  lemma AlternatesWithChanges(s: State)
    requires LinkInv(s) && s.accepted == s.taken + s.jobs
    requires |s.accepted| == |s.changes| && forall i :: 0 <= i < |s.changes| ==> s.accepted[i].kind == s.changes[i]
    ensures JobsAlternate(s.accepted) && JobsAlternate(s.taken) && s.taken <= s.accepted
    ensures s.phase.Awake? ==> s.accepted != [] && s.accepted[|s.accepted| - 1].kind == Connect
    ensures s.phase.Asleep? ==> s.accepted != [] && s.accepted[|s.accepted| - 1].kind == Disconnect
  {
    assert forall i :: 0 <= i < |s.taken| ==> s.taken[i] == s.accepted[i];
  }

  /** With both hooks configured the accepted jobs are connect, disconnect, connect, ..., what a worker
      has taken is a prefix of that, and the last accepted job tells whether the device is awake. */
  lemma {:induction false} HooksAlternate(hooks: Hooks, run: seq<Event>, s: State)
    requires BothConfigured(hooks) && Leads(hooks, INIT, run, s)
    ensures JobsAlternate(s.accepted) && JobsAlternate(s.taken) && s.taken <= s.accepted
    ensures forall i :: 0 <= i < |s.taken| ==>
              Runs(if i % 2 == 0 then hooks.onConnect else hooks.onDisconnect, s.taken[i].command)
    ensures s.phase.Awake? ==> s.accepted != [] && s.accepted[|s.accepted| - 1].kind == Connect
    ensures s.phase.Asleep? ==> s.accepted != [] && s.accepted[|s.accepted| - 1].kind == Disconnect
  {
    RunKeepsInv(hooks, INIT, run, s);
    OneJobPerChange(hooks, s.changes);
    AlternatesWithChanges(s);
    JobsAreHooks(hooks, run, s);
    assert forall i :: 0 <= i < |s.taken| ==> s.taken[i] in s.taken;
  }

  /** The jobs of which a child was started: those whose spawn succeeded. */
  function Started(taken: seq<Job>, spawned: seq<bool>): seq<Job>
    requires |spawned| <= |taken|
  {
    if spawned == [] then []
    else
      var n := |spawned| - 1;
      Started(taken, spawned[..n]) + if spawned[n] then [taken[n]] else []
  }

  function Failures(spawned: seq<bool>): nat {
    if spawned == [] then 0
    else Failures(spawned[..|spawned| - 1]) + if spawned[|spawned| - 1] then 0 else 1
  }

  /** Whether every successful spawn came after an even number of failed ones. */
  predicate EvenFailures(spawned: seq<bool>) {
    forall i :: 0 <= i < |spawned| && spawned[i] ==> Failures(spawned[..i]) % 2 == 0
  }

  lemma {:induction false} StartedCount(taken: seq<Job>, spawned: seq<bool>)
    requires |spawned| <= |taken|
    ensures |Started(taken, spawned)| + Failures(spawned) == |spawned|
    decreases |spawned|
  {
    if spawned == [] {
    } else {
      StartedCount(taken, spawned[..|spawned| - 1]);
    }
  }

  lemma {:induction false} StartedAlternates(taken: seq<Job>, spawned: seq<bool>)
    requires |spawned| <= |taken| && JobsAlternate(taken)
    ensures JobsAlternate(Started(taken, spawned)) <==> EvenFailures(spawned)
    decreases |spawned|
  {
    if spawned == [] {
    } else {
      var n := |spawned| - 1;
      var front := spawned[..n];
      StartedAlternates(taken, front);
      EvenFailuresStep(spawned);
      if spawned[n] {
        StartedCount(taken, front);
        AlternatesStep(Started(taken, front), taken[n]);
        SameKind(|Started(taken, front)|, n, Failures(front));
      } else {
        assert Started(taken, spawned) == Started(taken, front);
      }
    }
  }

  lemma EvenFailuresStep(spawned: seq<bool>)
    requires spawned != []
    ensures var n := |spawned| - 1;
            EvenFailures(spawned) <==>
            EvenFailures(spawned[..n]) && (spawned[n] ==> Failures(spawned[..n]) % 2 == 0)
  {
    var n := |spawned| - 1;
    var front := spawned[..n];
    assert forall i :: 0 <= i < n ==> front[i] == spawned[i] && spawned[..i] == front[..i];
    if EvenFailures(front) && (spawned[n] ==> Failures(front) % 2 == 0) {
      forall i | 0 <= i < |spawned| && spawned[i]
        ensures Failures(spawned[..i]) % 2 == 0
      {
        if i < n {
          assert front[i];
        }
      }
    }
  }

  lemma AlternatesStep(jobs: seq<Job>, job: Job)
    ensures JobsAlternate(jobs + [job]) <==> JobsAlternate(jobs) && job.kind == KindAt(|jobs|)
  {
    var more := jobs + [job];
    assert more[|jobs|] == job;
    assert forall i :: 0 <= i < |jobs| ==> more[i] == jobs[i];
  }

  lemma SameKind(started: nat, taken: nat, failures: nat)
    requires started + failures == taken
    ensures KindAt(started) == KindAt(taken) <==> failures % 2 == 0
  {
  }

  /** The commands actually started go connect, disconnect, connect, ... if and only if every one that
      could be started was preceded by an even number of commands that could not. */
  lemma {:induction false} ChildrenAlternate(hooks: Hooks, run: seq<Event>, s: State)
    requires BothConfigured(hooks) && Leads(hooks, INIT, run, s)
    ensures |s.spawned| <= |s.taken|
    ensures JobsAlternate(Started(s.taken, s.spawned)) <==> EvenFailures(s.spawned)
  {
    RunKeepsInv(hooks, INIT, run, s);
    HooksAlternate(hooks, run, s);
    StartedAlternates(s.taken, s.spawned);
  }

  lemma {:induction false} LeadsOneMore(hooks: Hooks, s: State, run: seq<Event>, t: State, e: Event)
    requires Leads(hooks, s, run, t) && Enabled(t, e)
    ensures Leads(hooks, s, run + [e], Apply(hooks, t, e))
    decreases |run|
  {
    if run == [] {
      assert run + [e] == [e] && [e][1..] == [];
    } else {
      LeadsOneMore(hooks, Apply(hooks, s, run[0]), run[1..], t, e);
      assert (run + [e])[1..] == run[1..] + [e];
    }
  }

  /** The connect hook cannot be started and the disconnect hook can: the first command started is a
      disconnect. */
  lemma FailedSpawnExample(hooks: Hooks) returns (run: seq<Event>, s: State)
    requires BothConfigured(hooks)
    ensures Leads(hooks, INIT, run, s) && |s.spawned| <= |s.taken|
    ensures |Started(s.taken, s.spawned)| == 1 && Started(s.taken, s.spawned)[0].kind == Disconnect
  {
    CommandServes(hooks, Connect);
    CommandServes(hooks, Disconnect);
    var on, off := Job(Connect, CommandFor(hooks, Connect)), Job(Disconnect, CommandFor(hooks, Disconnect));
    var s1 := Apply(hooks, INIT, Make(true));
    assert s1.phase == Awake && s1.jobs == [on] && s1.running && s1.workers == [Idle];
    var s2 := Apply(hooks, s1, Take(0));
    var s3 := Apply(hooks, s2, Spawn(0, false));
    assert s3 == State(Awake, [], true, [Idle], [Connect], [on], [on], [false]);
    var s4 := Apply(hooks, s3, Sleep(true));
    assert s4.jobs == [off] && s4.running && s4.workers == [Idle];
    var s5 := Apply(hooks, s4, Take(0));
    s := Apply(hooks, s5, Spawn(0, true));
    LeadsOneMore(hooks, INIT, [], INIT, Make(true));
    LeadsOneMore(hooks, INIT, [] + [Make(true)], s1, Take(0));
    LeadsOneMore(hooks, INIT, [] + [Make(true)] + [Take(0)], s2, Spawn(0, false));
    LeadsOneMore(hooks, INIT, [] + [Make(true)] + [Take(0)] + [Spawn(0, false)], s3, Sleep(true));
    LeadsOneMore(hooks, INIT, [] + [Make(true)] + [Take(0)] + [Spawn(0, false)] + [Sleep(true)], s4, Take(0));
    run := [] + [Make(true)] + [Take(0)] + [Spawn(0, false)] + [Sleep(true)] + [Take(0)];
    LeadsOneMore(hooks, INIT, run, s5, Spawn(0, true));
    run := run + [Spawn(0, true)];
    assert s.spawned[..1] == [false] && [false][..0] == [];
    assert Started(s.taken, [false]) == [];
  }

  // ---------------------------------------------------------------------------------------------
  // Pending jobs are not stranded
  // ---------------------------------------------------------------------------------------------

  /** Whether this event submits a job that the queue accepts. */
  predicate Submits(hooks: Hooks, s: State, e: Event) {
    match e
    case Make(_) => Configured(hooks, Connect)
    case Sleep(_) => s.phase.Awake? && Configured(hooks, Disconnect)
    case Wakeup(_) => s.phase.Asleep? && Configured(hooks, Connect)
    case _ => false
  }

  /** Whether the last submission of a run needed a thread that could not be created; `before` answers for
      a run without submissions. */
  predicate LastSubmissionFailed(hooks: Hooks, s: State, run: seq<Event>, before: bool)
    decreases |run|
  {
    if run == [] || !Enabled(s, run[0]) then before
    else
      var failed := if Submits(hooks, s, run[0]) then !s.running && !run[0].threadOk else before;
      LastSubmissionFailed(hooks, Apply(hooks, s, run[0]), run[1..], failed)
  }

  predicate Stranded(s: State) {
    s.jobs != [] && !s.running
  }

  lemma StepStrands(hooks: Hooks, s: State, e: Event)
    requires Inv(hooks, s) && Enabled(s, e)
    ensures Stranded(Apply(hooks, s, e)) <==>
            if Submits(hooks, s, e) then !s.running && !e.threadOk else Stranded(s)
  {
    CommandServes(hooks, Connect);
    CommandServes(hooks, Disconnect);
  }

  lemma {:induction false} StrandedIffFrom(hooks: Hooks, s: State, run: seq<Event>, s': State)
    requires Inv(hooks, s) && Leads(hooks, s, run, s')
    ensures Stranded(s') <==> LastSubmissionFailed(hooks, s, run, Stranded(s))
    decreases |run|
  {
    if run == [] {
    } else {
      StepKeepsInv(hooks, s, run[0]);
      StepStrands(hooks, s, run[0]);
      StrandedIffFrom(hooks, Apply(hooks, s, run[0]), run[1..], s');
    }
  }

  predicate WorkerStep(e: Event) {
    e.Take? || e.Spawn? || e.Reap?
  }

  /** How many steps of the worker are left until it ends, if nothing more is queued. */
  function Remaining(s: State): nat {
    3 * |s.jobs| +
    if s.workers == [] then 0
    else match s.workers[0]
         case Idle => 1
         case Spawning(_) => 3
         case Waiting(_) => 2
  }

  lemma WorkerStepShrinks(hooks: Hooks, s: State, e: Event)
    requires Inv(hooks, s) && WorkerStep(e) && Enabled(s, e)
    ensures Remaining(Apply(hooks, s, e)) < Remaining(s)
    ensures !Apply(hooks, s, e).running ==> Apply(hooks, s, e).jobs == []
  {
  }

  /** While a worker exists it can move, whatever the other threads do; each of its steps brings its end
      nearer, and it ends only with the queue empty. */
  lemma {:induction false} WorkerProgress(hooks: Hooks, run: seq<Event>, s: State)
    requires Leads(hooks, INIT, run, s) && s.running
    ensures exists e :: WorkerStep(e) && Enabled(s, e)
    ensures forall e :: WorkerStep(e) && Enabled(s, e) ==>
              && Remaining(Apply(hooks, s, e)) < Remaining(s)
              && (!Apply(hooks, s, e).running ==> Apply(hooks, s, e).jobs == [])
  {
    RunKeepsInv(hooks, INIT, run, s);
    WorkerCanMove(s);
    forall e | WorkerStep(e) && Enabled(s, e)
      ensures Remaining(Apply(hooks, s, e)) < Remaining(s)
      ensures !Apply(hooks, s, e).running ==> Apply(hooks, s, e).jobs == []
    {
      WorkerStepShrinks(hooks, s, e);
    }
  }

  lemma WorkerCanMove(s: State)
    requires s.workers != []
    ensures exists e :: WorkerStep(e) && Enabled(s, e)
  {
    match s.workers[0] {
      case Idle =>
        assert Enabled(s, Take(0));
      case Spawning(_) =>
        assert Enabled(s, Spawn(0, true));
      case Waiting(_) =>
        assert Enabled(s, Reap(0));
    }
  }

  /** Exact condition: after any run a job waits in the queue without a worker if and only if the last
      submission found no worker and its thread could not be created. */
  lemma {:induction false} NoIdleQueue(hooks: Hooks, run: seq<Event>, s: State)
    requires Leads(hooks, INIT, run, s)
    ensures s.jobs != [] && !s.running <==> LastSubmissionFailed(hooks, INIT, run, false)
  {
    StrandedIffFrom(hooks, INIT, run, s);
  }

  /** Whether some submission of the run can have a thread. */
  predicate Revives(hooks: Hooks, s: State, run: seq<Event>)
    decreases |run|
  {
    run != [] && Enabled(s, run[0]) &&
    ((Submits(hooks, s, run[0]) && run[0].threadOk) || Revives(hooks, Apply(hooks, s, run[0]), run[1..]))
  }

  /** Whether no worker exists at any point of the run. */
  predicate StaysIdle(hooks: Hooks, s: State, run: seq<Event>)
    decreases |run|
  {
    !s.running && (run != [] && Enabled(s, run[0]) ==> StaysIdle(hooks, Apply(hooks, s, run[0]), run[1..]))
  }

  /** Stranded jobs wait for the next submission whose thread can be created, and for nothing else: a run
      from a state without a worker never has one if and only if it has no such submission; until then
      nothing is taken and the jobs stay in order. */
  lemma {:induction false} StrandedUntilNextChange(hooks: Hooks, s: State, run: seq<Event>, s': State)
    requires Inv(hooks, s) && Leads(hooks, s, run, s') && !s.running
    ensures StaysIdle(hooks, s, run) <==> !Revives(hooks, s, run)
    ensures !Revives(hooks, s, run) ==> !s'.running && s'.taken == s.taken && s.jobs <= s'.jobs
    decreases |run|
  {
    if run == [] {
    } else {
      var t := Apply(hooks, s, run[0]);
      StepKeepsInv(hooks, s, run[0]);
      CommandServes(hooks, Connect);
      CommandServes(hooks, Disconnect);
      assert t.running <==> Submits(hooks, s, run[0]) && run[0].threadOk;
      if !t.running {
        assert t.taken == s.taken && s.jobs <= t.jobs;
        StrandedUntilNextChange(hooks, t, run[1..], s');
      }
    }
  }

  /** A job is stranded when the device falls asleep with its queue idle and the thread cannot be created. */
  lemma StrandedExample(hooks: Hooks) returns (run: seq<Event>, s: State)
    requires BothConfigured(hooks)
    ensures Leads(hooks, INIT, run, s) && Stranded(s) && s.phase.Asleep?
  {
    CommandServes(hooks, Connect);
    CommandServes(hooks, Disconnect);
    var s1 := Apply(hooks, INIT, Make(true));
    var s2 := Apply(hooks, s1, Take(0));
    var s3 := Apply(hooks, s2, Spawn(0, false));
    var s4 := Apply(hooks, s3, Take(0));
    s := Apply(hooks, s4, Sleep(false));
    LeadsOneMore(hooks, INIT, [], INIT, Make(true));
    LeadsOneMore(hooks, INIT, [] + [Make(true)], s1, Take(0));
    LeadsOneMore(hooks, INIT, [] + [Make(true)] + [Take(0)], s2, Spawn(0, false));
    LeadsOneMore(hooks, INIT, [] + [Make(true)] + [Take(0)] + [Spawn(0, false)], s3, Take(0));
    run := [] + [Make(true)] + [Take(0)] + [Spawn(0, false)] + [Take(0)];
    LeadsOneMore(hooks, INIT, run, s4, Sleep(false));
    run := run + [Sleep(false)];
  }
}
