/** The robot as a station: wpa_supplicant on a configured network, and an address by DHCP. */
module Client {
  import opened World
  import opened Daemons
  import opened Tuning

  /** Owns the supplicant of a connection; whoever drops the session drops the supplicant. */
  class ClientSession {
    const supplicant: Daemon

    constructor (supplicant: Daemon)
      ensures this.supplicant == supplicant
    {
      this.supplicant := supplicant;
    }
  }

  datatype ConnectResult = Connected(session: ClientSession) | NoConfig | Failed

  /** What makes the interface ready for a supplicant. */
  const STATION_STEPS: seq<Action> := [InterfaceChecked, AddressesFlushed, LinkRaised]

  /** What it takes to bring a station up besides the lease request: those, and a look for the address. */
  const STATION_COMMANDS := 4

  /** Everything that brings a station up, or fails to for want of an address. */
  function StationLog(supplicant: Pid, has: bool): seq<Action> {
    STATION_STEPS + [Spawned(supplicant), LeaseRequested, LookedForAddress(has)]
  }

  /** A supplicant is running and a lease has been asked for; and then there was an address or there
      was none. */
  ghost predicate StationUp(before: Machine, after: Machine, attempts: nat, has: bool) {
    && after == before.(
         procs := before.procs + [Process(WpaSupplicant, Live)],
         trace := before.trace + StationLog(|before.procs|, has),
         marks := after.marks,
         commands := after.commands,
         leases := after.leases,
         refusals := before.refusals + NoCount(has))
    && Did(before, after, StationLog(|before.procs|, has))
    && before.commands <= after.commands && |after.commands| == |before.commands| + STATION_COMMANDS
    && before.leases <= after.leases && |after.leases| == |before.leases| + 1
    && after.leases[|before.leases|].attempts == attempts
  }

  /** How a station comes up: the interface is checked, then cleared of addresses, then raised; only
      then is the supplicant started; a lease is asked for once it runs, and the address looked for after
      that; and that is all. */
  ghost predicate CameUp(log: seq<Action>, supplicant: Pid) {
    && First(log, InterfaceChecked) < First(log, AddressesFlushed) < First(log, LinkRaised)
       < First(log, Spawned(supplicant)) < First(log, LeaseRequested) < First(log, LookedForAddress(true))
       < |log| == 6
  }

  lemma InThisOrderItCameUp(log: seq<Action>, supplicant: Pid)
    requires |log| == 6 && log[0] == InterfaceChecked && log[1] == AddressesFlushed && log[2] == LinkRaised
    requires log[3] == Spawned(supplicant) && log[4] == LeaseRequested && log[5] == LookedForAddress(true)
    ensures CameUp(log, supplicant)
  {
    FirstIs(log, InterfaceChecked, 0);
    FirstIs(log, AddressesFlushed, 1);
    FirstIs(log, LinkRaised, 2);
    FirstIs(log, Spawned(supplicant), 3);
    FirstIs(log, LeaseRequested, 4);
    FirstIs(log, LookedForAddress(true), 5);
  }

  lemma StationCameUp(before: Machine, up: Machine, attempts: nat)
    requires StationUp(before, up, attempts, true)
    ensures CameUp(Since(before, up), |before.procs|)
  {
    DidIsSince(before, up, StationLog(|before.procs|, true));
    InThisOrderItCameUp(StationLog(|before.procs|, true), |before.procs|);
  }

  /** At most so many commands were run, and at most so many leases asked for, each as often as the
      configured timeout allows. */
  ghost predicate Errands(before: Machine, after: Machine, t: SuperviseTuning, commands: nat, leases: nat) {
    && before.commands <= after.commands && |after.commands| <= |before.commands| + commands
    && before.leases <= after.leases && |after.leases| <= |before.leases| + leases
    && forall k :: |before.leases| <= k < |after.leases| ==> after.leases[k].attempts == DhcpAttempts(t)
  }

  lemma ErrandsAddUp(a: Machine, b: Machine, c: Machine, t: SuperviseTuning, commands: nat, leases: nat,
                     moreCommands: nat, moreLeases: nat)
    requires Errands(a, b, t, commands, leases) && Errands(b, c, t, moreCommands, moreLeases)
    ensures Errands(a, c, t, commands + moreCommands, leases + moreLeases)
  {
    forall k | |a.leases| <= k < |c.leases|
      ensures c.leases[k].attempts == DhcpAttempts(t)
    {
      if k < |b.leases| {
        assert c.leases[k] == b.leases[k];
      }
    }
  }

  /** These commands were run, and none of them failed. */
  ghost predicate Prepared(before: Machine, after: Machine, steps: seq<Action>) {
    && after == before.(trace := before.trace + steps, marks := after.marks, commands := after.commands)
    && Did(before, after, steps)
    && before.commands <= after.commands && |after.commands| == |before.commands| + |steps|
  }

  /** The first of these commands were run, and the last of those that were failed. */
  ghost predicate CutShort(before: Machine, after: Machine, steps: seq<Action>) {
    && after == before.(trace := after.trace, marks := after.marks, commands := after.commands,
                        refusals := before.refusals + 1)
    && Later(before, after)
    && Since(before, after) != [] && Since(before, after) <= steps
    && before.commands <= after.commands && |after.commands| == |before.commands| + |Since(before, after)|
  }

  lemma NothingIsPrepared(m: Machine, steps: seq<Action>)
    ensures Prepared(m, m, steps[..0])
  {
  }

  lemma PreparedMore(before: Machine, m: Machine, after: Machine, steps: seq<Action>, a: Action)
    requires Prepared(before, m, steps) && OnlyRan(m, after, a, true)
    ensures Prepared(before, after, steps + [a])
  {
    DidMore(before, m, after, steps, [a]);
    assert after.trace == before.trace + (steps + [a]);
  }

  lemma CutShortHere(before: Machine, m: Machine, after: Machine, steps: seq<Action>, a: Action, all: seq<Action>)
    requires Prepared(before, m, steps) && OnlyRan(m, after, a, false)
    requires steps + [a] <= all
    ensures CutShort(before, after, all)
  {
    DidMore(before, m, after, steps, [a]);
    DidIsSince(before, after, steps + [a]);
  }

  /** Bringing something up failed, for one refusal: at most one process, of this kind, was started,
      and it has been stopped again. */
  ghost predicate Abandoned(before: Machine, after: Machine, kind: Kind) {
    && Quiet(after.procs)
    && before.procs <= after.procs
    && |after.procs| <= |before.procs| + 1
    && (|before.procs| < |after.procs| ==> after.procs[|before.procs|].kind == kind)
    && Later(before, after)
    && before.slept <= after.slept <= before.slept + TERM_GRACE
    && before.late <= after.late
    && before.commands <= after.commands
    && before.leases <= after.leases
    && after.refusals == before.refusals + 1
    && before.faults <= after.faults
    && (after.faults == before.faults ==>
          forall i :: |before.procs| <= i < |after.procs| ==> after.procs[i].phase == Reaped)
    && after.notices == before.notices
  }

  /** Everything a failed attempt does: a step fails, or the supplicant cannot be started, or there is
      no address in the end and the supplicant is stopped. */
  ghost predicate FailedStationLog(log: seq<Action>, supplicant: Pid) {
    || (log != [] && log <= STATION_STEPS)
    || log == STATION_STEPS + [Refused(WpaSupplicant)]
    || exists stop :: StopLog(stop, supplicant) && log == StationLog(supplicant, false) + stop
  }

  lemma CutShortIsAbandoned(before: Machine, after: Machine, steps: seq<Action>, kind: Kind)
    requires Quiet(before.procs) && CutShort(before, after, steps)
    ensures Abandoned(before, after, kind)
  {
  }

  lemma RefusedIsAbandoned(before: Machine, ready: Machine, after: Machine, steps: seq<Action>, kind: Kind)
    requires Quiet(before.procs) && Prepared(before, ready, steps)
    requires after == Record(ready, Refused(kind)).(refusals := ready.refusals + 1)
    ensures Abandoned(before, after, kind)
    ensures Since(before, after) == steps + [Refused(kind)]
    ensures before.commands <= after.commands && |after.commands| == |before.commands| + |steps|
  {
    DidMore(before, ready, after, steps, [Refused(kind)]);
    DidIsSince(before, after, steps + [Refused(kind)]);
  }

  /** One process was started and stopped again. */
  lemma StoppedIsAbandoned(before: Machine, started: Machine, after: Machine, kind: Kind)
    requires Quiet(before.procs) && Later(before, started)
    requires started == before.(procs := before.procs + [Process(kind, Live)], trace := started.trace,
                                marks := started.marks, commands := started.commands, leases := started.leases,
                                refusals := before.refusals + 1)
    requires before.commands <= started.commands && before.leases <= started.leases
    requires Stopped(started, after, |before.procs|)
    ensures Abandoned(before, after, kind)
  {
  }

  lemma StationIsUp(before: Machine, ready: Machine, leased: Machine, after: Machine, attempts: nat, has: bool)
    requires Prepared(before, ready, STATION_STEPS)
    requires leased == Record(Launch(ready, WpaSupplicant), LeaseRequested).(leases := leased.leases)
    requires ready.leases <= leased.leases && |leased.leases| == |ready.leases| + 1
    requires leased.leases[|ready.leases|].attempts == attempts
    requires OnlyRan(leased, after, LookedForAddress(has), has)
    ensures StationUp(before, after, attempts, has)
  {
    var rest := [Spawned(|before.procs|), LeaseRequested, LookedForAddress(has)];
    assert Did(ready, after, rest);
    DidMore(before, ready, after, STATION_STEPS, rest);
  }

  lemma WithoutAddressIsAbandoned(before: Machine, started: Machine, after: Machine, t: SuperviseTuning)
    requires Quiet(before.procs) && StationUp(before, started, DhcpAttempts(t), false)
    requires Stopped(started, after, |before.procs|)
    ensures Abandoned(before, after, WpaSupplicant)
    ensures FailedStationLog(Since(before, after), |before.procs|)
    ensures Errands(before, after, t, STATION_COMMANDS, 1)
  {
    StoppedIsAbandoned(before, started, after, WpaSupplicant);
    var pid, stop := |before.procs|, Since(started, after);
    SinceIsDone(started, after);
    DidMore(before, started, after, StationLog(pid, false), stop);
    DidIsSince(before, after, StationLog(pid, false) + stop);
  }

  lemma FirstDaemonIsSafe(m: Machine, kind: Kind)
    requires Safe(m) && Quiet(m.procs)
    ensures Safe(Launch(m, kind))
  {
    assert Exclusive(Launch(m, kind).procs);
  }

  /** A supplicant on its own may ask for a lease. */
  lemma LoneSupplicantMayAsk(m: Machine)
    requires Quiet(m.procs)
    ensures Timely(LeaseRequested, Launch(m, WpaSupplicant).procs)
  {
  }

  method Connect(world: World, tuning: SuperviseTuning) returns (r: ConnectResult)
    requires Safe(world.now) && Quiet(world.now.procs)
    modifies world
    ensures Safe(world.now)
    ensures r.NoConfig? ==> world.now == Record(old(world.now), LookedForConf(false))
    ensures r.Failed? ==>
              var looked := Record(old(world.now), LookedForConf(true));
              && Abandoned(looked, world.now, WpaSupplicant)
              && FailedStationLog(Since(looked, world.now), |looked.procs|)
              && Errands(looked, world.now, tuning, STATION_COMMANDS, 1)
    ensures r.Connected? ==>
              var looked := Record(old(world.now), LookedForConf(true));
              && StationUp(looked, world.now, DhcpAttempts(tuning), true)
              && r.session.supplicant.world == world
              && r.session.supplicant.kind == WpaSupplicant
              && r.session.supplicant.pid == |looked.procs|
              && CameUp(Since(looked, world.now), r.session.supplicant.pid)
  {
    var present := world.ClientConfPresent();
    if !present {
      return NoConfig;
    }
    r := ConnectInner(world, tuning);
  }

  method ConnectInner(world: World, tuning: SuperviseTuning) returns (r: ConnectResult)
    requires Safe(world.now) && Quiet(world.now.procs)
    modifies world
    ensures Safe(world.now)
    ensures !r.NoConfig?
    ensures r.Failed? ==> Abandoned(old(world.now), world.now, WpaSupplicant)
    ensures r.Failed? ==> FailedStationLog(Since(old(world.now), world.now), |old(world.now.procs)|)
    ensures r.Failed? ==> Errands(old(world.now), world.now, tuning, STATION_COMMANDS, 1)
    ensures r.Connected? ==>
              && StationUp(old(world.now), world.now, DhcpAttempts(tuning), true)
              && r.session.supplicant.world == world
              && r.session.supplicant.kind == WpaSupplicant
              && r.session.supplicant.pid == |old(world.now.procs)|
              && CameUp(Since(old(world.now), world.now), r.session.supplicant.pid)
  {
    ghost var before := world.now;
    var prepared := PrepareStation(world);
    if !prepared {
      CutShortIsAbandoned(before, world.now, STATION_STEPS, WpaSupplicant);
      return Failed;
    }

    ghost var ready := world.now;
    var pid := |world.now.procs|;
    FirstDaemonIsSafe(ready, WpaSupplicant);
    LoneSupplicantMayAsk(ready);
    var ok := world.Spawn(WpaSupplicant);
    if !ok {
      RefusedIsAbandoned(before, ready, world.now, STATION_STEPS, WpaSupplicant);
      return Failed;
    }
    var supplicant := new Daemon(world, WpaSupplicant, pid);

    world.RequestLease(DhcpAttempts(tuning));
    ghost var leased := world.now;
    var hasAddress := world.HasAddress();
    StationIsUp(before, ready, leased, world.now, DhcpAttempts(tuning), hasAddress);
    if hasAddress {
      StationCameUp(before, world.now, DhcpAttempts(tuning));
      var session := new ClientSession(supplicant);
      return Connected(session);
    }

    ghost var started := world.now;
    supplicant.Stop();
    WithoutAddressIsAbandoned(before, started, world.now, tuning);
    return Failed;
  }

  /** The interface exists, is flushed and is raised; or the attempt ends here. */
  method PrepareStation(world: World) returns (ok: bool)
    requires Safe(world.now) && Quiet(world.now.procs)
    modifies world
    ensures Safe(world.now)
    ensures ok ==> Prepared(old(world.now), world.now, STATION_STEPS)
    ensures !ok ==> CutShort(old(world.now), world.now, STATION_STEPS)
  {
    ghost var before := world.now;
    NothingIsPrepared(before, STATION_STEPS);
    ok := NextStep(world, InterfaceChecked, before, 0, STATION_STEPS);
    if !ok {
      return;
    }
    ok := NextStep(world, AddressesFlushed, before, 1, STATION_STEPS);
    if !ok {
      return;
    }
    ok := NextStep(world, LinkRaised, before, 2, STATION_STEPS);
  }

  /** Command number `k` of `all`, after those before it have worked. */
  method NextStep(world: World, a: Action, ghost before: Machine, ghost k: nat, ghost all: seq<Action>)
    returns (ok: bool)
    requires Safe(world.now) && Quiet(world.now.procs)
    requires k < |all| && all[k] == a && Prepared(before, world.now, all[..k])
    requires !a.Signalled? && !a.Collected? && Timely(a, world.now.procs)
    modifies world
    ensures Safe(world.now) && Quiet(world.now.procs)
    ensures ok ==> Prepared(before, world.now, all[..k + 1])
    ensures ok && k + 1 == |all| ==> Prepared(before, world.now, all)
    ensures !ok ==> CutShort(before, world.now, all)
  {
    ghost var m := world.now;
    ok := world.Command(a);
    assert all[..k + 1] == all[..k] + [a];
    assert all[..|all|] == all;
    if ok {
      PreparedMore(before, m, world.now, all[..k], a);
    } else {
      CutShortHere(before, m, world.now, all[..k], a, all);
    }
  }

  /** Best-effort: the addresses are flushed whether or not the command works. */
  method Teardown(world: World)
    requires Safe(world.now) && Quiet(world.now.procs)
    modifies world
    ensures Safe(world.now)
    ensures exists ok :: OnlyRan(old(world.now), world.now, AddressesFlushed, ok)
  {
    var ok := world.Command(AddressesFlushed);
  }
}
