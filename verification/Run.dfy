/** Whole runs of the supervisor: the driver loop, and what holds of every run it can make. */
module Runs {
  import opened Wrappers
  import opened StateMachine
  import opened World
  import opened Tuning
  import opened Supervision
  import opened Visits
  import opened Hook

  /** What can be seen between two turns of the driver loop. */
  datatype Boundary = Boundary(
    state: State,
    announced: bool,
    client: Option<Pid>,
    ap: Option<ApPids>,
    machine: Machine)

  predicate Settled(s: State) {
    s == ClientUp || s == FallbackAp
  }

  /** The notices a turn into `next` sends, in order. */
  function TurnNotices(from: State, announced: bool, next: State): seq<Notice> {
    (if next != from then [Hooked(next)] else []) + (if !announced && Settled(next) then [Ready(next)] else [])
  }

  /** Sessions match the state, every running daemon belongs to a session, and the daemons of a
      session are running. */
  ghost predicate Consistent(b: Boundary) {
    && Safe(b.machine)
    && (b.state == TryClient ==> b.client == None)
    && (b.state == ClientUp ==> b.client.Some? && b.ap == None)
    && (b.state == FallbackAp ==> b.client == None)
    && (b.client.Some? ==> Running(b.machine, b.client.value, WpaSupplicant))
    && (b.ap.Some? ==> && Running(b.machine, b.ap.value.hostapd, Hostapd)
                       && Running(b.machine, b.ap.value.dnsmasq, Dnsmasq))
    && OnlyLive(b.machine.procs,
         (if b.client == None then {} else {b.client.value}) +
         (if b.ap == None then {} else {b.ap.value.hostapd, b.ap.value.dnsmasq}))
  }

  ghost predicate Running(m: Machine, pid: Pid, kind: Kind) {
    pid < |m.procs| && m.procs[pid] == Process(kind, Live)
  }

  /** The most milliseconds a turn may sleep on hooks. */
  const HOOK_LIMIT := RUN_LIMIT + HOOK_GRACE + 2 * POLL

  /** What a visit to `state` that raised `e` did, before the hook and the readiness notice. */
  ghost predicate Visited(t: SuperviseTuning, state: State, hadClient: Option<Pid>, hadAp: Option<ApPids>,
                          before: Machine, e: Event, client: Option<Pid>, ap: Option<ApPids>, after: Machine) {
    && Raises(state, e)
    && Forward(before, after)
    && after.notices == before.notices
    && match e
       case ClientConnected | ClientFailed | ClientConfigMissing =>
         && (client.Some? <==> e == ClientConnected) && ap == None
         && exists parts :: Attempted(before, after, t, e, parts, hadAp)
       case LinkLost =>
         && client == None && ap == None && hadClient.Some?
         && exists seen: nat :: Watched(before, after, t, seen, hadClient.value)
       case ApDied | ApHeld | ApRetryDue =>
         && client == None
         && exists up, pids, polls: nat :: ApReady(before, up, hadAp, pids) && Served(up, after, t, pids, ap, e, polls)
  }

  /** Only notices were sent: the hook was called if the state changed, and no daemon was touched. */
  ghost predicate Told(before: Machine, after: Machine, hook: string, from: State, next: State, announced: bool) {
    && Forward(before, after)
    && before.procs <= after.procs
    && (forall i :: |before.procs| <= i < |after.procs| ==> after.procs[i].kind == StateHook)
    && NothingRan(before, after)
    && after.notices == before.notices + TurnNotices(from, announced, next)
    && after.slept < before.slept + HOOK_LIMIT
    && if next != from then HookCalled(before, after.(notices := before.notices + [Hooked(next)]), hook, next)
       else after == before.(notices := after.notices)
  }

  /** One call of the hook with the shipped limits. */
  ghost predicate HookCalled(before: Machine, after: Machine, hook: string, state: State) {
    Notified(before, after, state, RUN_LIMIT, HOOK_GRACE) && Called(before, after, hook)
  }

  /** One turn of the loop: the visit to `b.state` raised `e`, and what that meant was told. */
  ghost predicate Turn(t: SuperviseTuning, hook: string, b: Boundary, e: Event, c: Boundary) {
    && c.state == NextState(b.state, e)
    && c.announced == (b.announced || Settled(c.state))
    && exists m ::
         && Visited(t, b.state, b.client, b.ap, b.machine, e, c.client, c.ap, m)
         && Told(m, c.machine, hook, b.state, c.state, b.announced)
  }

  ghost predicate Initial(b: Boundary) {
    && b.state == TryClient && !b.announced && b.client == None && b.ap == None
    && b.machine.notices == [Hooked(TryClient)]
  }

  /** Before the first turn the interface was checked and the hook told what is about to be tried. */
  ghost predicate Begun(before: Machine, after: Machine, hook: string) {
    exists checked ::
      OnlyRan(before, checked, InterfaceChecked, true) && HookCalled(checked, after, hook, TryClient)
  }

  /** A run: consistent boundaries from the initial one on, each a turn away from the one before. */
  ghost predicate IsRun(t: SuperviseTuning, hook: string, visits: seq<Boundary>, events: seq<Event>) {
    && |visits| == |events| + 1
    && Initial(visits[0])
    && (forall i :: 0 <= i < |visits| ==> Consistent(visits[i]))
    && (forall i :: 0 <= i < |events| ==> TurnAt(t, hook, visits, events, i))
  }

  ghost predicate TurnAt(t: SuperviseTuning, hook: string, visits: seq<Boundary>, events: seq<Event>, i: nat)
    requires i < |events| < |visits|
  {
    Turn(t, hook, visits[i], events[i], visits[i + 1])
  }

  datatype RunEnd = NoInterface | Errored | Observed

  /** Runs the supervisor for as many as `turns` turns, watching a connection for as many as
      `patience` polls each time. The source's loop has no bounds; both are arbitrary here. */
  method Run(world: World, tuning: SuperviseTuning, hook: string, turns: nat, patience: nat)
    returns (end: RunEnd, ghost visits: seq<Boundary>, ghost events: seq<Event>)
    requires Safe(world.now) && Quiet(world.now.procs) && world.now.notices == [] && tuning.Clamped()
    modifies world
    ensures Safe(world.now)
    ensures forall instant :: 0 <= instant < |world.now.marks| ==> OnlyApTogether(world.now.marks[instant].table)
    ensures forall instant :: 0 <= instant < |world.now.trace| && OnInterface(world.now.trace[instant]) ==>
                                Quiet(world.now.marks[instant].table)
    ensures CollectedLeftAlone(world.now.trace)
    ensures end == NoInterface ==> OnlyRan(old(world.now), world.now, InterfaceChecked, false)
    ensures end != NoInterface ==> IsRun(tuning, hook, visits, events)
    ensures end != NoInterface ==> Begun(old(world.now), visits[0].machine, hook)
    ensures end != NoInterface ==> EndsRun(end, tuning, visits, world.now, turns, patience)
  {
    visits, events := [], [];
    var present := world.Command(InterfaceChecked);
    if !present {
      SafeHistory(world.now);
      return NoInterface, visits, events;
    }

    var supervisor := Begin(world, tuning, hook);
    end, visits, events := Drive(supervisor, hook, turns, patience);
    SafeHistory(world.now);
  }

  /** Nothing is held yet, and the hook hears what is about to be tried. */
  method Begin(world: World, tuning: SuperviseTuning, hook: string) returns (supervisor: Supervisor)
    requires Safe(world.now) && Quiet(world.now.procs) && world.now.notices == [] && tuning.Clamped()
    modifies world
    ensures fresh(supervisor) && supervisor.world == world && supervisor.tuning == tuning
    ensures supervisor.At(TryClient)
    ensures Consistent(SeenAt(supervisor, TryClient, false)) && Initial(SeenAt(supervisor, TryClient, false))
    ensures HookCalled(old(world.now), world.now, hook, TryClient)
  {
    supervisor := new Supervisor(world, tuning);
    CallHook(supervisor, hook, TryClient);
    SeenIsConsistent(supervisor, TryClient, false);
  }

  /** The loop: step, follow the table, tell the hook and systemd, and go round again. */
  method Drive(supervisor: Supervisor, hook: string, turns: nat, patience: nat)
    returns (end: RunEnd, ghost visits: seq<Boundary>, ghost events: seq<Event>)
    requires supervisor.At(TryClient)
    requires Consistent(SeenAt(supervisor, TryClient, false)) && Initial(SeenAt(supervisor, TryClient, false))
    modifies supervisor, supervisor.world
    ensures Safe(supervisor.world.now)
    ensures end != NoInterface && IsRun(supervisor.tuning, hook, visits, events)
    ensures visits[0] == old(SeenAt(supervisor, TryClient, false))
    ensures EndsRun(end, supervisor.tuning, visits, supervisor.world.now, turns, patience)
  {
    var state := TryClient;
    var announcedReady := false;
    end, events, visits := Observed, [], [SeenAt(supervisor, state, announcedReady)];
    var left := turns;
    while left > 0
      invariant end == Observed && supervisor.At(state)
      invariant IsRun(supervisor.tuning, hook, visits, events)
      invariant |events| == turns - left
      invariant visits[0] == old(SeenAt(supervisor, TryClient, false))
      invariant visits[|visits| - 1] == SeenAt(supervisor, state, announcedReady)
    {
      var r;
      r, state, announcedReady := TakeTurn(supervisor, hook, state, announcedReady, patience);
      if !r.Raised? {
        end := if r.Failed? then Errored else Observed;
        return;
      }
      left := left - 1;
      RunExtends(supervisor.tuning, hook, visits, events, r.event, SeenAt(supervisor, state, announcedReady));
      events := events + [r.event];
      visits := visits + [SeenAt(supervisor, state, announcedReady)];
    }
  }

  /** How the machine was left, against the last boundary reached: right there, or while a connection
      was still up, or with the start of an access point refused. */
  ghost predicate EndsRun(end: RunEnd, t: SuperviseTuning, visits: seq<Boundary>, m: Machine, turns: nat,
                          patience: nat) {
    && visits != []
    && var last := visits[|visits| - 1];
    && Forward(last.machine, m)
    && m.notices == last.machine.notices
    && if end == Errored then last.state == FallbackAp && last.ap == None && StartFailed(last.machine, m)
       else if |visits| == turns + 1 then m == last.machine
       else |visits| <= turns && last.state == ClientUp && StillConnected(last.machine, m, t, patience)
  }

  lemma RunExtends(t: SuperviseTuning, hook: string, visits: seq<Boundary>, events: seq<Event>, e: Event, c: Boundary)
    requires IsRun(t, hook, visits, events)
    requires Consistent(c) && Turn(t, hook, visits[|visits| - 1], e, c)
    ensures IsRun(t, hook, visits + [c], events + [e])
  {
    var vs, es := visits + [c], events + [e];
    forall i | 0 <= i < |es|
      ensures TurnAt(t, hook, vs, es, i)
    {
      if i < |events| {
        assert TurnAt(t, hook, visits, events, i);
        assert vs[i] == visits[i] && es[i] == events[i] && vs[i + 1] == visits[i + 1];
      }
    }
  }

  /** What can be seen of the supervisor between turns. */
  ghost function SeenAt(supervisor: Supervisor, state: State, announced: bool): Boundary
    reads supervisor, supervisor.world
  {
    Boundary(state, announced, supervisor.ClientPid(), supervisor.ApPair(), supervisor.world.now)
  }

  lemma SeenIsConsistent(supervisor: Supervisor, state: State, announced: bool)
    requires supervisor.At(state)
    ensures Consistent(SeenAt(supervisor, state, announced))
  {
  }

  /** One turn of the loop. An error drops the sessions before it leaves the supervisor. */
  method TakeTurn(supervisor: Supervisor, hook: string, state: State, announced: bool, patience: nat)
    returns (r: StepResult, next: State, announced': bool)
    requires supervisor.At(state)
    modifies supervisor, supervisor.world
    ensures Safe(supervisor.world.now)
    ensures Forward(old(supervisor.world.now), supervisor.world.now)
    ensures r.Raised? ==>
              && supervisor.At(next)
              && Consistent(SeenAt(supervisor, next, announced'))
              && Turn(supervisor.tuning, hook, old(SeenAt(supervisor, state, announced)), r.event,
                      SeenAt(supervisor, next, announced'))
    ensures !r.Raised? ==> supervisor.world.now.notices == old(supervisor.world.now.notices)
    ensures r.StillWatching? ==>
              && state == ClientUp
              && StillConnected(old(supervisor.world.now), supervisor.world.now, supervisor.tuning, patience)
    ensures r.Failed? ==>
              && state == FallbackAp && old(supervisor.ApPair()) == None
              && StartFailed(old(supervisor.world.now), supervisor.world.now)
  {
    ghost var b := SeenAt(supervisor, state, announced);
    r := Step(supervisor, state, patience);
    next, announced' := state, announced;
    if r.Raised? {
      next := NextState(state, r.event);
      announced' := Conclude(supervisor, hook, state, announced, b, r.event);
    } else if r.Failed? {
      supervisor.Drop();
    }
  }

  /** The end of a turn that began at `b` and whose visit raised `e`. */
  method Conclude(supervisor: Supervisor, hook: string, state: State, announced: bool, ghost b: Boundary, e: Event)
    returns (announced': bool)
    requires b.state == state && b.announced == announced
    requires supervisor.At(NextState(b.state, e))
    requires Visited(supervisor.tuning, b.state, b.client, b.ap, b.machine, e,
                     supervisor.ClientPid(), supervisor.ApPair(), supervisor.world.now)
    modifies supervisor.world
    ensures supervisor.At(NextState(b.state, e))
    ensures Forward(b.machine, supervisor.world.now)
    ensures var c := SeenAt(supervisor, NextState(b.state, e), announced');
            Consistent(c) && Turn(supervisor.tuning, hook, b, e, c)
  {
    ghost var m := supervisor.world.now;
    announced' := Tell(supervisor, hook, state, NextState(state, e), announced);
    VisitIsTurn(supervisor.tuning, hook, b, e, m, SeenAt(supervisor, NextState(b.state, e), announced'));
  }

  lemma VisitIsTurn(t: SuperviseTuning, hook: string, b: Boundary, e: Event, m: Machine, c: Boundary)
    requires Visited(t, b.state, b.client, b.ap, b.machine, e, c.client, c.ap, m)
    requires c.state == NextState(b.state, e) && c.announced == (b.announced || Settled(c.state))
    requires Told(m, c.machine, hook, b.state, c.state, b.announced)
    ensures Turn(t, hook, b, e, c)
    ensures Forward(b.machine, c.machine)
  {
    ForwardTransitive(b.machine, m, c.machine);
  }

  /** One visit: what it did, and that the next state finds what it expects. */
  method Step(supervisor: Supervisor, state: State, patience: nat) returns (r: StepResult)
    requires supervisor.At(state)
    modifies supervisor, supervisor.world
    ensures supervisor.Valid()
    ensures r.Failed? ==>
              && state == FallbackAp && old(supervisor.ApPair()) == None
              && supervisor.client == null && supervisor.ap == null
              && StartFailed(old(supervisor.world.now), supervisor.world.now)
    ensures r.StillWatching? ==>
              && state == ClientUp
              && StillConnected(old(supervisor.world.now), supervisor.world.now, supervisor.tuning, patience)
    ensures r.Raised? ==> supervisor.At(NextState(state, r.event))
    ensures Forward(old(supervisor.world.now), supervisor.world.now)
    ensures supervisor.world.now.notices == old(supervisor.world.now.notices)
    ensures r.Raised? ==>
      Visited(supervisor.tuning, state, old(supervisor.ClientPid()), old(supervisor.ApPair()),
              old(supervisor.world.now), r.event, supervisor.ClientPid(), supervisor.ApPair(), supervisor.world.now)
  {
    match state
    case TryClient =>
      ghost var parts;
      var event;
      event, parts := supervisor.TryClient();
      r := Raised(event);
    case ClientUp =>
      var lost;
      ghost var seen;
      lost, seen := supervisor.WatchClient(patience);
      r := if lost then Raised(LinkLost) else StillWatching;
    case FallbackAp =>
      ghost var up, pids, polls;
      r, up, pids, polls := supervisor.ServeAp();
  }

  lemma HookChildIsNoDaemon(before: seq<Process>, after: seq<Process>, owned: set<Pid>)
    requires OnlyLive(before, owned) && before <= after
    requires forall i :: |before| <= i < |after| ==> after[i].kind == StateHook
    ensures OnlyLive(after, owned)
  {
    forall i | 0 <= i < |after| && LiveDaemon(after[i])
      ensures i in owned
    {
      assert after[i] == before[i];
    }
  }

  lemma NotifiedIsForward(before: Machine, called: Machine, state: State)
    requires Notified(before, called, state, RUN_LIMIT, HOOK_GRACE)
    ensures Forward(before, called) && before.procs <= called.procs
    ensures forall i :: |before.procs| <= i < |called.procs| ==> called.procs[i].kind == StateHook
  {
  }

  lemma CallingIsTelling(before: Machine, called: Machine, after: Machine, hook: string, from: State, next: State,
                         announced: bool)
    requires if next != from then HookCalled(before, called, hook, next) else called == before
    requires after == if !announced && Settled(next) then called.(notices := called.notices + [Ready(next)]) else called
    ensures Told(before, after, hook, from, next, announced)
  {
    if next != from {
      NotifiedIsForward(before, called, next);
      assert called == after.(notices := before.notices + [Hooked(next)]);
    }
    assert after.procs == called.procs && after.slept == called.slept;
    assert after.notices == before.notices + TurnNotices(from, announced, next);
    assert Forward(called, after);
    ForwardTransitive(before, called, after);
  }

  method CallHook(supervisor: Supervisor, hook: string, next: State)
    requires supervisor.At(next)
    modifies supervisor.world
    ensures supervisor.At(next)
    ensures HookCalled(old(supervisor.world.now), supervisor.world.now, hook, next)
  {
    ghost var before := supervisor.world.now.procs;
    Notify(supervisor.world, hook, next);
    HookChildIsNoDaemon(before, supervisor.world.now.procs, supervisor.Owned());
  }

  /** The hook is called on a change of state; readiness is announced once, at the first settled
      state. */
  method Tell(supervisor: Supervisor, hook: string, from: State, next: State, announced: bool)
    returns (announced': bool)
    requires supervisor.At(next)
    modifies supervisor.world
    ensures supervisor.At(next)
    ensures Consistent(SeenAt(supervisor, next, announced'))
    ensures Told(old(supervisor.world.now), supervisor.world.now, hook, from, next, announced)
    ensures announced' == (announced || Settled(next))
  {
    ghost var before := supervisor.world.now;
    announced' := announced;
    if next != from {
      CallHook(supervisor, hook, next);
    }
    ghost var called := supervisor.world.now;
    if !announced && Settled(next) {
      supervisor.world.Announce(Ready(next));
      announced' := true;
    }
    CallingIsTelling(before, called, supervisor.world.now, hook, from, next, announced);
    SeenIsConsistent(supervisor, next, announced');
  }
}
