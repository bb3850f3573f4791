/** How long it takes to have an access point after a client cycle that failed. */
module Downtime {
  import opened Wrappers
  import opened StateMachine
  import opened Amounts
  import opened World
  import opened Daemons
  import opened Tuning
  import opened Client
  import opened Ap
  import opened Visits
  import opened Runs
  import opened RunProperties

  /** No command between two moments took longer than `limit`, and no lease request that much longer
      than all its attempts. */
  ghost predicate Brisk(before: Machine, after: Machine, limit: nat) {
    && (forall k :: |before.commands| <= k < |after.commands| ==> after.commands[k] <= limit)
    && (forall k :: |before.leases| <= k < |after.leases| ==>
          after.leases[k].cost <= LeaseLimit(after.leases[k].attempts, limit))
  }

  function LeaseLimit(attempts: nat, limit: nat): nat {
    attempts * (DHCP_ATTEMPT_TIMEOUT_SEC * 1000) + limit
  }

  lemma OneMore(count: nat, d: nat)
    ensures (count + 1) * d == count * d + d
  {
  }

  lemma {:induction false} TotalGrows(before: seq<nat>, after: seq<nat>, limit: nat)
    requires before <= after
    requires forall k :: |before| <= k < |after| ==> after[k] <= limit
    ensures Total(after) <= Total(before) + (|after| - |before|) * limit
    decreases |after|
  {
    if before != after {
      var init := after[..|after| - 1];
      TotalGrows(before, init, limit);
      OneMore(|init| - |before|, limit);
    }
  }

  lemma {:induction false} LeaseTimeGrows(before: seq<Lease>, after: seq<Lease>, limit: nat)
    requires before <= after
    requires forall k :: |before| <= k < |after| ==> after[k].cost <= limit
    ensures LeaseTime(after) <= LeaseTime(before) + (|after| - |before|) * limit
    decreases |after|
  {
    if before != after {
      var init := after[..|after| - 1];
      LeaseTimeGrows(before, init, limit);
      OneMore(|init| - |before|, limit);
    }
  }

  lemma Scale(a: nat, b: nat, d: nat)
    requires a <= b
    ensures a * d <= b * d
  {
    assert (b - a) * d >= 0;
  }

  /** So many commands and leases take no longer than so many times their limits. */
  lemma ErrandsAreBrisk(before: Machine, after: Machine, t: SuperviseTuning, commands: nat, leases: nat, limit: nat)
    requires Errands(before, after, t, commands, leases) && Brisk(before, after, limit)
    ensures Total(after.commands) <= Total(before.commands) + commands * limit
    ensures LeaseTime(after.leases) <= LeaseTime(before.leases) + leases * LeaseLimit(DhcpAttempts(t), limit)
  {
    TotalGrows(before.commands, after.commands, limit);
    LeaseTimeGrows(before.leases, after.leases, LeaseLimit(DhcpAttempts(t), limit));
    Scale(|after.commands| - |before.commands|, commands, limit);
    Scale(|after.leases| - |before.leases|, leases, LeaseLimit(DhcpAttempts(t), limit));
  }

  lemma BriskUntil(a: Machine, b: Machine, c: Machine, limit: nat)
    requires Forward(a, b) && Forward(b, c) && Brisk(a, c, limit)
    ensures Brisk(a, b, limit)
  {
    assert forall k :: 0 <= k < |b.commands| ==> c.commands[k] == b.commands[k];
    assert forall k :: 0 <= k < |b.leases| ==> c.leases[k] == b.leases[k];
  }

  /** The errands of a client cycle and of starting an access point after it. */
  function CycleErrands(t: SuperviseTuning, had: Option<ApPids>): nat {
    ApFlushes(had) + Times(t.clientAttempts, STATION_COMMANDS) + |START_STEPS|
  }

  /** What a cycle of failed attempts may sleep: the stops of the access point it took down and of
      every attempt, the pauses between attempts, and one hook call. */
  function CycleSleep(t: SuperviseTuning, had: Option<ApPids>): nat
    requires t.Clamped()
  {
    CycleLimit(t, ApStops(had) + t.clientAttempts, t.clientAttempts - 1) + HOOK_LIMIT
  }

  /** The longest that all lease attempts of one connection may take, by the configured timeout. */
  function LeasingTime(t: SuperviseTuning, limit: nat): nat {
    (t.connectTimeoutSec + DHCP_ATTEMPT_TIMEOUT_SEC) * 1000 + limit
  }

  lemma LeaseAttemptsFit(t: SuperviseTuning, limit: nat)
    ensures LeaseLimit(DhcpAttempts(t), limit) <= LeasingTime(t, limit)
  {
    DhcpAttemptsCoverTimeout(t);
  }

  /** What it may take until there is an access point: that sleeping, the leasing of every attempt,
      and every other command. */
  function CycleTime(t: SuperviseTuning, had: Option<ApPids>, limit: nat): int
    requires t.Clamped()
  {
    (ApStops(had) + t.clientAttempts) * TERM_GRACE
    + (t.clientAttempts - 1) * (t.retrySec * 1000)
    + HOOK_LIMIT
    + t.clientAttempts * LeasingTime(t, limit)
    + (ApFlushes(had) + t.clientAttempts * STATION_COMMANDS + |START_STEPS|) * limit
  }

  /** No longer, and no more commands and leases, than a whole cycle of failed attempts takes. */
  ghost predicate FitsInCycle(before: Machine, after: Machine, t: SuperviseTuning, had: Option<ApPids>)
    requires t.Clamped()
  {
    && after.slept <= before.slept + CycleSleep(t, had) - HOOK_LIMIT
    && Errands(before, after, t, ApFlushes(had) + Times(t.clientAttempts, STATION_COMMANDS), t.clientAttempts)
  }

  /** The costs of this many failed attempts and pauses between them, no more than a whole cycle has. */
  ghost predicate CostsOf(before: Machine, after: Machine, t: SuperviseTuning, had: Option<ApPids>, failed: nat,
                          pauses: nat) {
    && failed <= t.clientAttempts && pauses + 1 <= t.clientAttempts
    && CycleCost(before, after, t, failed, failed, had)
    && Paused(before, after, t, ApStops(had) + failed, pauses)
  }

  lemma CycleFits(before: Machine, after: Machine, t: SuperviseTuning, failed: nat, pauses: nat, had: Option<ApPids>)
    requires t.Clamped() && CostsOf(before, after, t, had, failed, pauses)
    ensures FitsInCycle(before, after, t, had)
  {
    TimesGrows(pauses, t.clientAttempts - 1, t.retrySec * 1000);
    TimesGrows(ApStops(had) + failed, ApStops(had) + t.clientAttempts, TERM_GRACE);
    TimesGrows(failed, t.clientAttempts, STATION_COMMANDS);
  }

  lemma FailedCycle(before: Machine, after: Machine, t: SuperviseTuning, e: Event, parts: seq<seq<Action>>,
                    had: Option<ApPids>)
    requires t.Clamped() && (e == ClientFailed || e == ClientConfigMissing)
    requires Attempted(before, after, t, e, parts, had)
    ensures CostsOf(before, after, t, had, |parts|, Pauses(e, parts))
  {
  }

  lemma FailedVisit(t: SuperviseTuning, b: Boundary, e: Event, client: Option<Pid>, ap: Option<ApPids>, m: Machine)
    returns (failed: nat, pauses: nat)
    requires t.Clamped() && (e == ClientFailed || e == ClientConfigMissing)
    requires Visited(t, b.state, b.client, b.ap, b.machine, e, client, ap, m)
    ensures ap == None
    ensures CostsOf(b.machine, m, t, b.ap, failed, pauses)
  {
    var parts :| Attempted(b.machine, m, t, e, parts, b.ap);
    FailedCycle(b.machine, m, t, e, parts, b.ap);
    failed, pauses := |parts|, Pauses(e, parts);
  }

  /** A cycle that failed, for want of a network or of credentials. */
  lemma FailedTurn(t: SuperviseTuning, hook: string, b: Boundary, e: Event, c: Boundary)
    requires t.Clamped() && Turn(t, hook, b, e, c) && b.state == TryClient && e != ClientConnected
    ensures c.state == FallbackAp && c.ap == None
    ensures c.machine.slept <= b.machine.slept + CycleSleep(t, b.ap)
    ensures Errands(b.machine, c.machine, t, ApFlushes(b.ap) + Times(t.clientAttempts, STATION_COMMANDS),
                    t.clientAttempts)
  {
    var m :| Visited(t, b.state, b.client, b.ap, b.machine, e, c.client, c.ap, m)
             && Told(m, c.machine, hook, b.state, c.state, b.announced);
    var failed, pauses := FailedVisit(t, b, e, c.client, c.ap, m);
    CycleFits(b.machine, m, t, failed, pauses, b.ap);
  }

  /** A turn in FallbackAp without an access point starts one. */
  lemma StartingTurn(t: SuperviseTuning, hook: string, b: Boundary, e: Event, c: Boundary)
    returns (up: Machine, pids: ApPids)
    requires Turn(t, hook, b, e, c) && b.state == FallbackAp && b.ap == None
    ensures ApUp(b.machine, up, START_STEPS)
    ensures pids == ApPids(|b.machine.procs| + 1, |b.machine.procs|)
    ensures Forward(b.machine, up) && Forward(up, c.machine)
  {
    var m :| Visited(t, b.state, b.client, b.ap, b.machine, e, c.client, c.ap, m)
             && Told(m, c.machine, hook, b.state, c.state, b.announced);
    var polls: nat;
    up, pids, polls :| ApReady(b.machine, up, b.ap, pids) && Served(up, m, t, pids, c.ap, e, polls);
    ForwardTransitive(up, m, c.machine);
  }

  lemma CycleIsBounded(a: Machine, b: Machine, up: Machine, t: SuperviseTuning, had: Option<ApPids>, limit: nat)
    requires t.Clamped() && b.slept <= a.slept + CycleSleep(t, had)
    requires Errands(a, b, t, ApFlushes(had) + Times(t.clientAttempts, STATION_COMMANDS), t.clientAttempts)
    requires ApUp(b, up, START_STEPS)
    requires Brisk(a, up, limit)
    ensures up.Clock() - up.late <= a.Clock() - a.late + CycleTime(t, had, limit)
  {
    ErrandsAddUp(a, b, up, t, ApFlushes(had) + Times(t.clientAttempts, STATION_COMMANDS), t.clientAttempts,
                 |START_STEPS|, 0);
    ErrandsAreBrisk(a, up, t, CycleErrands(t, had), t.clientAttempts, limit);
    TimesIsProduct(ApStops(had) + t.clientAttempts, TERM_GRACE);
    TimesIsProduct(t.clientAttempts - 1, t.retrySec * 1000);
    TimesIsProduct(t.clientAttempts, STATION_COMMANDS);
    LeaseAttemptsFit(t, limit);
    Scale(LeaseLimit(DhcpAttempts(t), limit), LeasingTime(t, limit), t.clientAttempts);
  }

  lemma RetryTurnKeepsAp(t: SuperviseTuning, hook: string, b: Boundary, c: Boundary)
    requires Turn(t, hook, b, ApRetryDue, c)
    ensures c.ap.Some?
  {
  }

  lemma FailedThenUp(t: SuperviseTuning, hook: string, a: Boundary, e: Event, b: Boundary, next: Event, c: Boundary,
                     limit: nat)
    returns (up: Machine, pids: ApPids)
    requires t.Clamped() && Turn(t, hook, a, e, b) && Turn(t, hook, b, next, c)
    requires a.state == TryClient && e != ClientConnected
    requires Brisk(a.machine, c.machine, limit)
    ensures ApUp(b.machine, up, START_STEPS)
    ensures pids == ApPids(|b.machine.procs| + 1, |b.machine.procs|)
    ensures Forward(a.machine, up) && Forward(up, c.machine)
    ensures up.Clock() - up.late <= a.machine.Clock() - a.machine.late + CycleTime(t, a.ap, limit)
  {
    TurnForward(t, hook, a, e, b);
    FailedTurn(t, hook, a, e, b);
    up, pids := StartingTurn(t, hook, b, next, c);
    ForwardTransitive(a.machine, b.machine, up);
    BriskUntil(a.machine, up, c.machine, limit);
    CycleIsBounded(a.machine, b.machine, up, t, a.ap, limit);
  }

  /** The k-th action of `m` started hostapd, right after dnsmasq, and that was the last step of
      bringing an access point up since `before`. */
  ghost predicate HostapdStarted(before: Machine, m: Machine, k: nat) {
    var n := |before.procs|;
    && |before.trace| <= k < |m.trace| && k < |m.marks|
    && m.trace[..|before.trace|] == before.trace
    && RaisedAfresh(m.trace[|before.trace|..k + 1], ApPids(n + 1, n))
    && m.marks[k].table == before.procs + [Process(Dnsmasq, Live), Process(Hostapd, Live)]
  }

  lemma UpIsInHistory(before: Machine, up: Machine, m: Machine)
    requires Later(up, m) && |up.trace| == |up.marks|
    requires ApUp(before, up, START_STEPS)
    ensures var k := |up.trace| - 1;
            HostapdStarted(before, m, k) && m.marks[k].time == up.Clock()
  {
    var k := |up.trace| - 1;
    var n := |before.procs|;
    assert m.trace[..k + 1] == up.trace;
    assert m.trace[|before.trace|..k + 1] == START_STEPS + [Spawned(n), Spawned(n + 1)];
    StartStepsRaise(n);
    assert m.marks[k] == up.marks[k];
  }

  lemma FailedThenStarted(t: SuperviseTuning, hook: string, a: Boundary, e: Event, b: Boundary, next: Event,
                          c: Boundary, limit: nat)
    returns (k: nat)
    requires t.Clamped() && Turn(t, hook, a, e, b) && Turn(t, hook, b, next, c)
    requires a.state == TryClient && e != ClientConnected && |b.machine.trace| == |b.machine.marks|
    requires Brisk(a.machine, c.machine, limit)
    ensures HostapdStarted(b.machine, c.machine, k)
    ensures c.machine.marks[k].time <=
            a.machine.Clock() + CycleTime(t, a.ap, limit) + (b.machine.late - a.machine.late)
  {
    var up, pids := FailedThenUp(t, hook, a, e, b, next, c, limit);
    UpIsInHistory(b.machine, up, c.machine);
    k := |up.trace| - 1;
  }

  /** From the moment a client cycle begins that ends without a connection -- and if it began because
      a retry was due, an access point was up until then -- it takes no longer than the cycle, one
      hook call and a start until hostapd has been started, not counting what sleeps overrun. `k` is
      where the history of the run records that start and when it was, and `limit` is what the
      commands run in these turns took at most. */
  lemma DowntimeIsBounded(t: SuperviseTuning, hook: string, visits: seq<Boundary>, events: seq<Event>, i: nat,
                          limit: nat)
    returns (k: nat)
    requires t.Clamped() && IsRun(t, hook, visits, events) && i + 2 < |visits|
    requires visits[i].state == TryClient && events[i] != ClientConnected
    requires Brisk(visits[i].machine, visits[i + 2].machine, limit)
    ensures i > 0 && events[i - 1] == ApRetryDue ==> visits[i].ap.Some?
    ensures HostapdStarted(visits[i + 1].machine, visits[i + 2].machine, k)
    ensures visits[i + 2].machine.marks[k].time <=
            visits[i].machine.Clock() + CycleTime(t, visits[i].ap, limit)
            + (visits[i + 1].machine.late - visits[i].machine.late)
  {
    if i > 0 && events[i - 1] == ApRetryDue {
      assert TurnAt(t, hook, visits, events, i - 1);
      RetryTurnKeepsAp(t, hook, visits[i - 1], visits[i]);
    }
    assert TurnAt(t, hook, visits, events, i) && TurnAt(t, hook, visits, events, i + 1);
    k := FailedThenStarted(t, hook, visits[i], events[i], visits[i + 1], events[i + 1], visits[i + 2], limit);
  }
  lemma ShippedCycleTime(had: Option<ApPids>, limit: nat)
    ensures SHIPPED.Clamped()
    ensures CycleTime(SHIPPED, had, limit) == if had.Some? then 202020 + 24 * limit else 182020 + 23 * limit
  {
  }

  /** With the shipped settings that is 202 seconds and 24 commands, or 182 seconds and 23 commands where
      there was no access point to take down. */
  lemma ShippedDowntime(hook: string, visits: seq<Boundary>, events: seq<Event>, i: nat, limit: nat)
    returns (k: nat)
    requires IsRun(SHIPPED, hook, visits, events) && i + 2 < |visits|
    requires visits[i].state == TryClient && events[i] != ClientConnected
    requires Brisk(visits[i].machine, visits[i + 2].machine, limit)
    ensures HostapdStarted(visits[i + 1].machine, visits[i + 2].machine, k)
    ensures visits[i + 2].machine.marks[k].time <=
            visits[i].machine.Clock() + (visits[i + 1].machine.late - visits[i].machine.late)
            + if visits[i].ap.Some? then 202020 + 24 * limit else 182020 + 23 * limit
  {
    ShippedCycleTime(visits[i].ap, limit);
    k := DowntimeIsBounded(SHIPPED, hook, visits, events, i, limit);
  }
}
