/** The access point raised when there is no network to join: two daemons and one address. */
module Ap {
  import opened World
  import opened Daemons
  import opened Client

  /** What makes the interface ready for an access point. */
  const AP_STEPS: seq<Action> :=
    [InterfaceChecked, ConfWritten(Hostapd), ConfWritten(Dnsmasq), AddressesFlushed, AddressAdded, LinkRaised]

  /** The access point is up: after these commands dnsmasq was started, and just now hostapd. */
  ghost predicate ApUp(before: Machine, after: Machine, steps: seq<Action>) {
    var n := |before.procs|;
    && after == before.(
         procs := before.procs + [Process(Dnsmasq, Live), Process(Hostapd, Live)],
         trace := before.trace + (steps + [Spawned(n), Spawned(n + 1)]),
         marks := after.marks,
         commands := after.commands)
    && Did(before, after, steps + [Spawned(n), Spawned(n + 1)])
    && after.marks != [] && after.marks[|after.marks| - 1] == Mark(after.procs, after.Clock())
    && before.commands <= after.commands && |after.commands| == |before.commands| + |steps|
  }

  /** How an access point comes up, the interface being checked first: both configurations are
      written; then the interface is flushed, given its one address and raised, in that order; only
      then are dnsmasq and hostapd started; and that is all. */
  ghost predicate BroughtUp(log: seq<Action>, hostapd: Pid, dnsmasq: Pid) {
    && First(log, InterfaceChecked) < First(log, ConfWritten(Hostapd)) < First(log, ConfWritten(Dnsmasq))
       < First(log, AddressesFlushed) < First(log, AddressAdded) < First(log, LinkRaised)
       < First(log, Spawned(dnsmasq)) < First(log, Spawned(hostapd)) < |log| == 8
  }

  lemma InThisOrderItIsBroughtUp(log: seq<Action>, hostapd: Pid, dnsmasq: Pid)
    requires |log| == 8 && hostapd != dnsmasq
    requires log[0] == InterfaceChecked && log[1] == ConfWritten(Hostapd) && log[2] == ConfWritten(Dnsmasq)
    requires log[3] == AddressesFlushed && log[4] == AddressAdded && log[5] == LinkRaised
    requires log[6] == Spawned(dnsmasq) && log[7] == Spawned(hostapd)
    ensures BroughtUp(log, hostapd, dnsmasq)
  {
    FirstIs(log, InterfaceChecked, 0);
    FirstIs(log, ConfWritten(Hostapd), 1);
    FirstIs(log, ConfWritten(Dnsmasq), 2);
    FirstIs(log, AddressesFlushed, 3);
    FirstIs(log, AddressAdded, 4);
    FirstIs(log, LinkRaised, 5);
    FirstIs(log, Spawned(dnsmasq), 6);
    FirstIs(log, Spawned(hostapd), 7);
  }

  lemma ApStepsBringUp(n: Pid)
    ensures BroughtUp(AP_STEPS + [Spawned(n), Spawned(n + 1)], n + 1, n)
  {
    InThisOrderItIsBroughtUp(AP_STEPS + [Spawned(n), Spawned(n + 1)], n + 1, n);
  }

  lemma UpIsBroughtUp(before: Machine, up: Machine)
    requires ApUp(before, up, AP_STEPS)
    ensures BroughtUp(Since(before, up), |before.procs| + 1, |before.procs|)
  {
    var n := |before.procs|;
    DidIsSince(before, up, AP_STEPS + [Spawned(n), Spawned(n + 1)]);
    ApStepsBringUp(n);
  }

  /** Everything a failed start does: a step fails, or dnsmasq cannot be started, or hostapd cannot
      and dnsmasq is stopped. */
  ghost predicate FailedApLog(log: seq<Action>, steps: seq<Action>, dnsmasq: Pid) {
    || (log != [] && log <= steps)
    || log == steps + [Refused(Dnsmasq)]
    || exists stop :: StopLog(stop, dnsmasq) && log == steps + [Spawned(dnsmasq), Refused(Hostapd)] + stop
  }

  /** More steps before the first. */
  lemma FailedApLogAfter(first: seq<Action>, log: seq<Action>, steps: seq<Action>, dnsmasq: Pid)
    requires FailedApLog(log, steps, dnsmasq)
    ensures FailedApLog(first + log, first + steps, dnsmasq)
  {
    if log == steps + [Refused(Dnsmasq)] {
      assert first + log == (first + steps) + [Refused(Dnsmasq)];
    } else if !(log <= steps) {
      var stop :| StopLog(stop, dnsmasq) && log == steps + [Spawned(dnsmasq), Refused(Hostapd)] + stop;
      assert first + log == (first + steps) + [Spawned(dnsmasq), Refused(Hostapd)] + stop;
    }
  }

  /** Both daemons stopped, then the addresses flushed, then both stopped again. */
  ghost predicate DropLog(log: seq<Action>, hostapd: Pid, dnsmasq: Pid) {
    exists first, second, third, fourth ::
      && AnyStopLog(first, hostapd) && AnyStopLog(second, dnsmasq)
      && AnyStopLog(third, hostapd) && AnyStopLog(fourth, dnsmasq)
      && log == first + second + [AddressesFlushed] + third + fourth
  }

  /** The same when the second stops find nothing left to do. */
  ghost predicate CleanDropLog(log: seq<Action>, hostapd: Pid, dnsmasq: Pid) {
    exists first, second ::
      AnyStopLog(first, hostapd) && AnyStopLog(second, dnsmasq) && log == first + second + [AddressesFlushed]
  }

  /** What two stops may do to the process table. */
  ghost predicate BothStopped(before: seq<Process>, after: seq<Process>, hostapd: Pid, dnsmasq: Pid) {
    && hostapd < |before| == |after| && dnsmasq < |before|
    && after[hostapd].phase != Live && after[dnsmasq].phase != Live
    && after == before[hostapd := after[hostapd]][dnsmasq := after[dnsmasq]]
  }

  /** `after` is what dropping a session with these two daemons may make of `before`. Each daemon
      is stopped twice, once by the session and once by its own drop. */
  ghost predicate Dropped(before: Machine, after: Machine, hostapd: Pid, dnsmasq: Pid) {
    && BothStopped(before.procs, after.procs, hostapd, dnsmasq)
    && Later(before, after)
    && DropLog(Since(before, after), hostapd, dnsmasq)
    && before.slept <= after.slept <= before.slept + 4 * TERM_GRACE
    && before.late <= after.late
    && before.commands <= after.commands && |after.commands| == |before.commands| + 1
    && after.leases == before.leases
    && before.refusals <= after.refusals <= before.refusals + 1
    && before.faults <= after.faults
    && (after.faults == before.faults ==>
          && after.procs[hostapd].phase == Reaped && after.procs[dnsmasq].phase == Reaped
          && after.slept <= before.slept + 2 * TERM_GRACE
          && CleanDropLog(Since(before, after), hostapd, dnsmasq))
    && after.notices == before.notices
  }

  lemma TwoStops(before: Machine, first: Machine, second: Machine, hostapd: Pid, dnsmasq: Pid)
    requires hostapd != dnsmasq && dnsmasq < |before.procs|
    requires Stopped(before, first, hostapd) && Stopped(first, second, dnsmasq)
    ensures BothStopped(before.procs, second.procs, hostapd, dnsmasq)
    ensures second.faults == before.faults ==>
              second.procs[hostapd].phase == Reaped && second.procs[dnsmasq].phase == Reaped
  {
  }

  lemma BothStoppedTwice(a: seq<Process>, b: seq<Process>, c: seq<Process>, hostapd: Pid, dnsmasq: Pid)
    requires BothStopped(a, b, hostapd, dnsmasq) && BothStopped(b, c, hostapd, dnsmasq)
    ensures BothStopped(a, c, hostapd, dnsmasq)
  {
  }

  lemma NoneIsLeft(before: seq<Process>, after: seq<Process>, hostapd: Pid, dnsmasq: Pid)
    requires BothStopped(before, after, hostapd, dnsmasq)
    requires forall i :: 0 <= i < |before| && LiveDaemon(before[i]) ==> i == hostapd || i == dnsmasq
    ensures Quiet(after)
  {
  }

  /** What a stop records. */
  lemma StopRecords(before: Machine, after: Machine, pid: Pid)
    requires Stopped(before, after, pid)
    ensures Did(before, after, Since(before, after)) && AnyStopLog(Since(before, after), pid)
  {
    SinceIsDone(before, after);
  }

  lemma DropIsLogged(before: Machine, first: Machine, second: Machine, flushed: Machine, third: Machine, after: Machine,
                     ok: bool, hostapd: Pid, dnsmasq: Pid)
    requires Stopped(before, first, hostapd) && Stopped(first, second, dnsmasq)
    requires OnlyRan(second, flushed, AddressesFlushed, ok)
    requires Stopped(flushed, third, hostapd) && Stopped(third, after, dnsmasq)
    ensures Later(before, after) && DropLog(Since(before, after), hostapd, dnsmasq)
  {
    FlushIsLogged(before, first, second, flushed, ok, hostapd, dnsmasq);
    StopRecords(flushed, third, hostapd);
    StopRecords(third, after, dnsmasq);
    var a, b, c, d := Since(before, first), Since(first, second), Since(flushed, third), Since(third, after);
    DidMore(before, flushed, third, a + b + [AddressesFlushed], c);
    DidMore(before, third, after, a + b + [AddressesFlushed] + c, d);
    DidIsSince(before, after, a + b + [AddressesFlushed] + c + d);
  }

  lemma FlushIsLogged(before: Machine, first: Machine, second: Machine, flushed: Machine, ok: bool,
                      hostapd: Pid, dnsmasq: Pid)
    requires Stopped(before, first, hostapd) && Stopped(first, second, dnsmasq)
    requires OnlyRan(second, flushed, AddressesFlushed, ok)
    ensures var a, b := Since(before, first), Since(first, second);
            && AnyStopLog(a, hostapd) && AnyStopLog(b, dnsmasq)
            && Did(before, flushed, a + b + [AddressesFlushed])
            && Since(before, flushed) == a + b + [AddressesFlushed]
  {
    StopRecords(before, first, hostapd);
    StopRecords(first, second, dnsmasq);
    var a, b := Since(before, first), Since(first, second);
    DidMore(before, first, second, a, b);
    DidMore(before, second, flushed, a + b, [AddressesFlushed]);
    DidIsSince(before, flushed, a + b + [AddressesFlushed]);
  }

  /** The session's own two stops, its flush, and the two stops of the daemons' drops. */
  lemma StopsAreDrop(before: Machine, first: Machine, second: Machine, flushed: Machine, third: Machine, after: Machine,
                     ok: bool, hostapd: Pid, dnsmasq: Pid)
    requires hostapd != dnsmasq && dnsmasq < |before.procs|
    requires Stopped(before, first, hostapd) && Stopped(first, second, dnsmasq)
    requires OnlyRan(second, flushed, AddressesFlushed, ok)
    requires Stopped(flushed, third, hostapd) && Stopped(third, after, dnsmasq)
    ensures Dropped(before, after, hostapd, dnsmasq)
  {
    TwoStops(before, first, second, hostapd, dnsmasq);
    TwoStops(flushed, third, after, hostapd, dnsmasq);
    BothStoppedTwice(before.procs, second.procs, after.procs, hostapd, dnsmasq);
    DropIsLogged(before, first, second, flushed, third, after, ok, hostapd, dnsmasq);
    if after.faults == before.faults {
      assert third == flushed && after == flushed;
      FlushIsLogged(before, first, second, flushed, ok, hostapd, dnsmasq);
    }
  }

  /** What one question about both daemons may come to. Both are always asked. */
  ghost predicate BothAsked(before: Machine, asked: Machine, after: Machine, hostapd: Pid, dnsmasq: Pid,
                            healthy: bool) {
    exists first, second ::
      && Asked(before, asked, hostapd, first) && Asked(asked, after, dnsmasq, second)
      && (healthy <==> first == StillRunning && second == StillRunning)
  }

  class ApSession {
    const hostapd: Daemon
    const dnsmasq: Daemon
    const world: World

    ghost predicate Valid()
      reads world
    {
      && hostapd.world == world && hostapd.kind == Hostapd && hostapd.Valid()
      && dnsmasq.world == world && dnsmasq.kind == Dnsmasq && dnsmasq.Valid()
      && hostapd.pid != dnsmasq.pid
    }

    constructor (world: World, hostapd: Daemon, dnsmasq: Daemon)
      ensures this.world == world && this.hostapd == hostapd && this.dnsmasq == dnsmasq
    {
      this.world, this.hostapd, this.dnsmasq := world, hostapd, dnsmasq;
    }

    /** Asks both daemons, whatever the first answers, so both are reaped if both have died. */
    method IsHealthy() returns (healthy: bool, ghost asked: Machine)
      requires Valid() && Safe(world.now)
      modifies world
      ensures Valid() && Safe(world.now)
      ensures BothAsked(old(world.now), asked, world.now, hostapd.pid, dnsmasq.pid, healthy)
    {
      var hostapdRuns, dnsmasqRuns;
      ghost var first, second;
      hostapdRuns, first := hostapd.IsRunning();
      asked := world.now;
      dnsmasqRuns, second := dnsmasq.IsRunning();
      healthy := hostapdRuns && dnsmasqRuns;
    }

    /** The session's own drop, and after it those of its daemons. */
    method Drop()
      requires Valid() && Safe(world.now)
      requires forall i :: 0 <= i < |world.now.procs| && LiveDaemon(world.now.procs[i]) ==>
                             i == hostapd.pid || i == dnsmasq.pid
      modifies world
      ensures Valid() && Safe(world.now) && Quiet(world.now.procs)
      ensures Dropped(old(world.now), world.now, hostapd.pid, dnsmasq.pid)
    {
      ghost var before := world.now;
      hostapd.Stop();
      ghost var first := world.now;
      dnsmasq.Stop();
      ghost var second := world.now;
      TwoStops(before, first, second, hostapd.pid, dnsmasq.pid);
      NoneIsLeft(before.procs, second.procs, hostapd.pid, dnsmasq.pid);
      var ok := world.Command(AddressesFlushed);
      ghost var flushed := world.now;
      hostapd.Stop();
      ghost var third := world.now;
      dnsmasq.Stop();
      StopsAreDrop(before, first, second, flushed, third, world.now, ok, hostapd.pid, dnsmasq.pid);
      NoneIsLeft(before.procs, world.now.procs, hostapd.pid, dnsmasq.pid);
    }
  }

  lemma SecondDaemonIsSafe(m: Machine)
    requires Safe(m) && Quiet(m.procs)
    ensures Safe(Launch(Launch(m, Dnsmasq), Hostapd))
  {
    FirstDaemonIsSafe(m, Dnsmasq);
    assert Exclusive(Launch(Launch(m, Dnsmasq), Hostapd).procs);
  }

  lemma WithoutHostapdIsAbandoned(before: Machine, ready: Machine, refused: Machine, after: Machine)
    requires Quiet(before.procs) && Prepared(before, ready, AP_STEPS)
    requires refused == Record(Launch(ready, Dnsmasq), Refused(Hostapd)).(refusals := ready.refusals + 1)
    requires Stopped(refused, after, |before.procs|)
    ensures Abandoned(before, after, Dnsmasq)
    ensures FailedApLog(Since(before, after), AP_STEPS, |before.procs|)
  {
    var pid, stop := |before.procs|, Since(refused, after);
    assert Did(ready, refused, [Spawned(pid), Refused(Hostapd)]);
    DidMore(before, ready, refused, AP_STEPS, [Spawned(pid), Refused(Hostapd)]);
    StoppedIsAbandoned(before, refused, after, Dnsmasq);
    SinceIsDone(refused, after);
    DidMore(before, refused, after, AP_STEPS + [Spawned(pid), Refused(Hostapd)], stop);
    DidIsSince(before, after, AP_STEPS + [Spawned(pid), Refused(Hostapd)] + stop);
  }

  lemma ApIsUp(before: Machine, ready: Machine)
    requires |before.trace| == |before.marks| && Prepared(before, ready, AP_STEPS)
    ensures ApUp(before, Launch(Launch(ready, Dnsmasq), Hostapd), AP_STEPS)
  {
    var up, n := Launch(Launch(ready, Dnsmasq), Hostapd), |before.procs|;
    assert up.procs == before.procs + [Process(Dnsmasq, Live), Process(Hostapd, Live)];
    assert Did(ready, up, [Spawned(n), Spawned(n + 1)]);
    DidMore(before, ready, up, AP_STEPS, [Spawned(n), Spawned(n + 1)]);
  }

  /** The interface first, then dnsmasq, then hostapd; null when any of it fails. */
  method Start(world: World) returns (session: ApSession?)
    requires Safe(world.now) && Quiet(world.now.procs)
    modifies world
    ensures Safe(world.now)
    ensures session == null ==> Abandoned(old(world.now), world.now, Dnsmasq)
    ensures session == null ==> FailedApLog(Since(old(world.now), world.now), AP_STEPS, |old(world.now.procs)|)
    ensures session != null ==>
              && ApUp(old(world.now), world.now, AP_STEPS)
              && session.world == world && session.Valid()
              && session.dnsmasq.pid == |old(world.now.procs)|
              && session.hostapd.pid == |old(world.now.procs)| + 1
              && BroughtUp(Since(old(world.now), world.now), session.hostapd.pid, session.dnsmasq.pid)
  {
    ghost var before := world.now;
    var prepared := PrepareAp(world);
    if !prepared {
      CutShortIsAbandoned(before, world.now, AP_STEPS, Dnsmasq);
      return null;
    }

    ghost var ready := world.now;
    var pid := |world.now.procs|;
    FirstDaemonIsSafe(ready, Dnsmasq);
    SecondDaemonIsSafe(ready);
    var ok := world.Spawn(Dnsmasq);
    if !ok {
      RefusedIsAbandoned(before, ready, world.now, AP_STEPS, Dnsmasq);
      return null;
    }
    var dnsmasq := new Daemon(world, Dnsmasq, pid);
    session := StartHostapd(world, dnsmasq, before, ready);
    if session != null {
      UpIsBroughtUp(before, world.now);
    }
  }

  /** The rest of a start, once dnsmasq runs; dropping dnsmasq stops it if hostapd cannot be started. */
  method StartHostapd(world: World, dnsmasq: Daemon, ghost before: Machine, ghost ready: Machine)
    returns (session: ApSession?)
    requires Quiet(before.procs) && |before.trace| == |before.marks| && Prepared(before, ready, AP_STEPS)
    requires world.now == Launch(ready, Dnsmasq) && Safe(world.now) && Safe(Launch(Launch(ready, Dnsmasq), Hostapd))
    requires dnsmasq.world == world && dnsmasq.kind == Dnsmasq && dnsmasq.pid == |before.procs|
    modifies world
    ensures Safe(world.now)
    ensures session == null ==>
              Abandoned(before, world.now, Dnsmasq) && FailedApLog(Since(before, world.now), AP_STEPS, |before.procs|)
    ensures session != null ==>
              && ApUp(before, world.now, AP_STEPS)
              && session.world == world && session.Valid()
              && session.dnsmasq.pid == |before.procs| && session.hostapd.pid == |before.procs| + 1
  {
    var pid := |world.now.procs|;
    var ok := world.Spawn(Hostapd);
    if !ok {
      ghost var refused := world.now;
      dnsmasq.Stop();
      WithoutHostapdIsAbandoned(before, ready, refused, world.now);
      return null;
    }
    ApIsUp(before, ready);
    var hostapd := new Daemon(world, Hostapd, pid);
    session := new ApSession(world, hostapd, dnsmasq);
  }

  /** The interface exists, both daemon configs are written, and the interface is flushed,
      addressed and raised; or the attempt ends here. */
  method PrepareAp(world: World) returns (ok: bool)
    requires Safe(world.now) && Quiet(world.now.procs)
    modifies world
    ensures Safe(world.now)
    ensures ok ==> Prepared(old(world.now), world.now, AP_STEPS)
    ensures !ok ==> CutShort(old(world.now), world.now, AP_STEPS)
  {
    ghost var before := world.now;
    ok := WriteConfs(world);
    if !ok {
      return;
    }
    ok := NextStep(world, AddressesFlushed, before, 3, AP_STEPS);
    if !ok {
      return;
    }
    ok := NextStep(world, AddressAdded, before, 4, AP_STEPS);
    if !ok {
      return;
    }
    ok := NextStep(world, LinkRaised, before, 5, AP_STEPS);
  }

  method WriteConfs(world: World) returns (ok: bool)
    requires Safe(world.now) && Quiet(world.now.procs)
    modifies world
    ensures Safe(world.now) && Quiet(world.now.procs)
    ensures ok ==> Prepared(old(world.now), world.now, AP_STEPS[..3])
    ensures !ok ==> CutShort(old(world.now), world.now, AP_STEPS)
  {
    ghost var before := world.now;
    NothingIsPrepared(before, AP_STEPS);
    ok := NextStep(world, InterfaceChecked, before, 0, AP_STEPS);
    if !ok {
      return;
    }
    ok := NextStep(world, ConfWritten(Hostapd), before, 1, AP_STEPS);
    if !ok {
      return;
    }
    ok := NextStep(world, ConfWritten(Dnsmasq), before, 2, AP_STEPS);
  }
}
