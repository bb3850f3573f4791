/** An access point that is up stays up: what may end it is only ever something outside the supervisor. */
module Holding {
  import opened Wrappers
  import opened StateMachine
  import opened Amounts
  import opened World
  import opened Tuning
  import opened Ap
  import opened Visits
  import opened Runs
  import opened RunProperties

  /** The child was seen to be gone, or could not be asked after, without having been sent a signal. */
  ghost predicate GaveOutUnasked(actions: seq<Action>, pid: Pid) {
    exists k :: 0 <= k < |actions| && GivesOut(actions[k], pid) && Unsignalled(actions[..k], pid)
  }

  predicate GivesOut(a: Action, pid: Pid) {
    a == Collected(pid) || a == WaitFailed(pid)
  }

  predicate Unsignalled(actions: seq<Action>, pid: Pid) {
    Signalled(pid, Term) !in actions && Signalled(pid, Kill) !in actions
  }

  /** Between two moments client.conf was not found, and neither daemon of the access point gave out
      unasked. Nothing is said of what the supervisor did. */
  ghost predicate Undisturbed(before: Machine, after: Machine, pids: ApPids) {
    && LookedForConf(true) !in Since(before, after)
    && !GaveOutUnasked(Since(before, after), pids.hostapd)
    && !GaveOutUnasked(Since(before, after), pids.dnsmasq)
  }

  /** All that is done while an access point is held: sleep, find both daemons running, and not find
      client.conf. */
  predicate HoldingAction(a: Action, pids: ApPids) {
    a.Slept? || a == FoundRunning(pids.hostapd) || a == FoundRunning(pids.dnsmasq) || a == LookedForConf(false)
  }

  ghost predicate OnlyHolding(actions: seq<Action>, pids: ApPids) {
    forall a :: a in actions ==> HoldingAction(a, pids)
  }

  /** Between the two nothing happened but that, and the time it took. */
  ghost predicate HeldMachine(before: Machine, after: Machine, pids: ApPids) {
    && after == before.(trace := after.trace, marks := after.marks, slept := after.slept, late := after.late)
    && Later(before, after)
    && OnlyHolding(Since(before, after), pids)
  }

  ghost predicate Held(b: Boundary, c: Boundary) {
    b.ap.Some? && c == b.(machine := c.machine) && HeldMachine(b.machine, c.machine, b.ap.value)
  }

  lemma {:induction false} ApLooksHold(count: nat, ms: nat, pids: ApPids)
    ensures OnlyHolding(ApLooks(count, ms, pids), pids)
  {
    if count > 0 {
      ApLooksHold(count - 1, ms, pids);
    }
  }

  lemma GivingOutShows(looks: seq<Action>, ms: nat, asked: seq<Action>, drop: seq<Action>, pids: ApPids)
    requires OnlyHolding(looks, pids) && FoundDead(asked, pids)
    ensures var log := looks + ([Slept(ms)] + (asked + drop));
            GaveOutUnasked(log, pids.hostapd) || GaveOutUnasked(log, pids.dnsmasq)
  {
    var log := looks + ([Slept(ms)] + (asked + drop));
    var first := |looks| + 1;
    assert log[first] == asked[0] && log[first + 1] == asked[1];
    assert log[..first] == looks + [Slept(ms)];
    assert log[..first + 1] == looks + [Slept(ms), asked[0]];
    if asked[0] != FoundRunning(pids.hostapd) {
      assert GivesOut(log[first], pids.hostapd) && Unsignalled(log[..first], pids.hostapd);
    } else {
      assert GivesOut(log[first + 1], pids.dnsmasq) && Unsignalled(log[..first + 1], pids.dnsmasq);
    }
  }

  lemma DeathShows(looks: seq<Action>, last: seq<Action>, ms: nat, pids: ApPids)
    requires OnlyHolding(looks, pids) && DeathLog(last, ms, pids)
    ensures GaveOutUnasked(looks + last, pids.hostapd) || GaveOutUnasked(looks + last, pids.dnsmasq)
  {
    var asked, drop :| FoundDead(asked, pids) && DropLog(drop, pids.hostapd, pids.dnsmasq)
                       && last == [Slept(ms)] + (asked + drop);
    GivingOutShows(looks, ms, asked, drop, pids);
  }

  lemma DeathOf(before: Machine, m: Machine, t: SuperviseTuning, pids: ApPids, has: Option<ApPids>, polls: nat)
    returns (last: seq<Action>)
    requires Served(before, m, t, pids, has, ApDied, polls)
    ensures DeathLog(last, t.linkPollSec * 1000, pids)
    ensures Since(before, m) == ApLooks(polls - 1, t.linkPollSec * 1000, pids) + last
  {
    var ms := t.linkPollSec * 1000;
    last :| DeathLog(last, ms, pids) && Did(before, m, ApLooks(polls - 1, ms, pids) + last);
    DidIsSince(before, m, ApLooks(polls - 1, ms, pids) + last);
  }

  /** A death is a disturbance: a daemon gave out before anything was done to it. */
  lemma DeathDisturbs(before: Machine, m: Machine, after: Machine, t: SuperviseTuning, pids: ApPids,
                      has: Option<ApPids>, polls: nat)
    requires Served(before, m, t, pids, has, ApDied, polls) && after.trace == m.trace
    ensures !Undisturbed(before, after, pids)
  {
    var ms := t.linkPollSec * 1000;
    var last := DeathOf(before, m, t, pids, has, polls);
    ApLooksHold(polls - 1, ms, pids);
    DeathShows(ApLooks(polls - 1, ms, pids), last, ms, pids);
  }

  lemma QuietVisitHolds(before: Machine, m: Machine, t: SuperviseTuning, pids: ApPids, has: Option<ApPids>, polls: nat)
    requires Served(before, m, t, pids, has, ApHeld, polls)
    ensures HeldMachine(before, m, pids) && m.Clock() >= before.Clock() + t.apRetrySec * 1000
  {
    var ms := t.linkPollSec * 1000;
    ApLooksHold(polls, ms, pids);
    DidIsSince(before, m, ApLooks(polls, ms, pids) + [LookedForConf(false)]);
  }

  lemma RetryDisturbs(before: Machine, m: Machine, after: Machine, t: SuperviseTuning, pids: ApPids,
                      has: Option<ApPids>, polls: nat)
    requires Served(before, m, t, pids, has, ApRetryDue, polls) && Later(m, after)
    ensures !Undisturbed(before, after, pids)
  {
    var looks := ApLooks(polls, t.linkPollSec * 1000, pids);
    var at := |before.trace| + |looks|;
    assert m.trace == before.trace + (looks + [LookedForConf(true)]);
    assert Since(before, after)[|looks|] == after.trace[at] == m.trace[at] == LookedForConf(true);
  }

  /** A turn that nothing outside disturbs leaves a running access point alone. */
  lemma TurnHolds(t: SuperviseTuning, hook: string, b: Boundary, e: Event, c: Boundary)
    requires Turn(t, hook, b, e, c) && b.state == FallbackAp && b.ap.Some? && b.announced && b.client == None
    requires Undisturbed(b.machine, c.machine, b.ap.value)
    ensures Held(b, c) && c.machine.Clock() >= b.machine.Clock() + t.apRetrySec * 1000
  {
    var m :| Visited(t, b.state, b.client, b.ap, b.machine, e, c.client, c.ap, m)
             && Told(m, c.machine, hook, b.state, c.state, b.announced);
    var up, pids, polls: nat :| ApReady(b.machine, up, b.ap, pids) && Served(up, m, t, pids, c.ap, e, polls);
    match e {
      case ApDied =>
        DeathDisturbs(b.machine, m, c.machine, t, pids, c.ap, polls);
        assert false;
      case ApRetryDue =>
        RetryDisturbs(b.machine, m, c.machine, t, pids, c.ap, polls);
        assert false;
      case ApHeld =>
        QuietVisitHolds(b.machine, m, t, pids, c.ap, polls);
        assert c.machine == m;
    }
  }

  lemma GivingOutStaysSeen(a: Machine, b: Machine, c: Machine, pid: Pid)
    requires Later(a, b) && Later(b, c) && GaveOutUnasked(Since(a, b), pid)
    ensures GaveOutUnasked(Since(a, c), pid)
  {
    var actions := Since(a, b);
    var k :| 0 <= k < |actions| && GivesOut(actions[k], pid) && Unsignalled(actions[..k], pid);
    assert Since(a, c)[k] == actions[k] && Since(a, c)[..k] == actions[..k];
  }

  lemma UndisturbedUntil(a: Machine, b: Machine, c: Machine, pids: ApPids)
    requires Later(a, b) && Later(b, c) && Undisturbed(a, c, pids)
    ensures Undisturbed(a, b, pids)
  {
    if GaveOutUnasked(Since(a, b), pids.hostapd) {
      GivingOutStaysSeen(a, b, c, pids.hostapd);
    }
    if GaveOutUnasked(Since(a, b), pids.dnsmasq) {
      GivingOutStaysSeen(a, b, c, pids.dnsmasq);
    }
    SinceAddsUp(a, b, c);
  }

  lemma SinceAddsUp(a: Machine, b: Machine, c: Machine)
    requires Later(a, b) && Later(b, c)
    ensures Later(a, c) && Since(a, c) == Since(a, b) + Since(b, c)
  {
    SinceIsDone(a, b);
    SinceIsDone(b, c);
    DidMore(a, b, c, Since(a, b), Since(b, c));
    DidIsSince(a, c, Since(a, b) + Since(b, c));
  }

  lemma GivingOutLater(first: seq<Action>, rest: seq<Action>, pids: ApPids, pid: Pid)
    requires OnlyHolding(first, pids) && GaveOutUnasked(rest, pid)
    ensures GaveOutUnasked(first + rest, pid)
  {
    var k :| 0 <= k < |rest| && GivesOut(rest[k], pid) && Unsignalled(rest[..k], pid);
    var log := first + rest;
    assert log[|first| + k] == rest[k] && log[..|first| + k] == first + rest[..k];
  }

  /** Nothing that is done while holding is a disturbance or hides one. */
  lemma UndisturbedFrom(a: Machine, b: Machine, c: Machine, pids: ApPids)
    requires HeldMachine(a, b, pids) && Later(b, c) && Undisturbed(a, c, pids)
    ensures Undisturbed(b, c, pids)
  {
    SinceAddsUp(a, b, c);
    if GaveOutUnasked(Since(b, c), pids.hostapd) {
      GivingOutLater(Since(a, b), Since(b, c), pids, pids.hostapd);
    }
    if GaveOutUnasked(Since(b, c), pids.dnsmasq) {
      GivingOutLater(Since(a, b), Since(b, c), pids, pids.dnsmasq);
    }
  }

  lemma HeldOnAndOn(a: Machine, b: Machine, c: Machine, pids: ApPids)
    requires HeldMachine(a, b, pids) && HeldMachine(b, c, pids)
    ensures HeldMachine(a, c, pids)
  {
    SinceAddsUp(a, b, c);
  }

  /** What holding an access point takes of one turn. */
  ghost predicate Holds(b: Boundary, c: Boundary, retry: nat) {
    && Forward(b.machine, c.machine)
    && (b.state == FallbackAp && b.ap.Some? && b.announced && b.client == None
        && Undisturbed(b.machine, c.machine, b.ap.value) ==>
          Held(b, c) && c.machine.Clock() >= b.machine.Clock() + retry)
  }

  ghost predicate Holding(visits: seq<Boundary>, retry: nat) {
    forall k :: 0 <= k < |visits| - 1 ==> HoldsAt(visits, retry, k)
  }

  ghost predicate HoldsAt(visits: seq<Boundary>, retry: nat, k: nat)
    requires k < |visits| - 1
  {
    Holds(visits[k], visits[k + 1], retry)
  }

  lemma RunHolds(t: SuperviseTuning, hook: string, visits: seq<Boundary>, events: seq<Event>)
    requires IsRun(t, hook, visits, events)
    ensures Holding(visits, t.apRetrySec * 1000)
  {
    forall k | 0 <= k < |visits| - 1
      ensures HoldsAt(visits, t.apRetrySec * 1000, k)
    {
      var b, e, c := visits[k], events[k], visits[k + 1];
      assert TurnAt(t, hook, visits, events, k);
      TurnForward(t, hook, b, e, c);
      if b.state == FallbackAp && b.ap.Some? && b.announced && b.client == None
         && Undisturbed(b.machine, c.machine, b.ap.value) {
        TurnHolds(t, hook, b, e, c);
      }
    }
  }

  lemma {:induction false} HoldingForward(visits: seq<Boundary>, retry: nat, i: nat, j: nat)
    requires Holding(visits, retry) && i <= j < |visits|
    ensures Forward(visits[i].machine, visits[j].machine)
    decreases j - i
  {
    if i < j {
      HoldingForward(visits, retry, i, j - 1);
      assert HoldsAt(visits, retry, j - 1);
      ForwardTransitive(visits[i].machine, visits[j - 1].machine, visits[j].machine);
    }
  }

  /** One more turn does not end the holding. */
  lemma HoldOneMore(a: Boundary, b: Boundary, c: Boundary, retry: nat)
    requires a.state == FallbackAp && a.ap.Some? && a.announced && a.client == None
    requires Held(a, b) && Holds(b, c, retry)
    requires Undisturbed(a.machine, c.machine, a.ap.value)
    ensures Held(a, c) && c.machine.Clock() >= b.machine.Clock() + retry
  {
    UndisturbedFrom(a.machine, b.machine, c.machine, a.ap.value);
    HeldOnAndOn(a.machine, b.machine, c.machine, a.ap.value);
  }

  lemma {:induction false} HoldingHolds(visits: seq<Boundary>, retry: nat, i: nat, j: nat)
    requires Holding(visits, retry) && i <= j < |visits|
    requires visits[i].state == FallbackAp && visits[i].ap.Some? && visits[i].announced && visits[i].client == None
    requires Undisturbed(visits[i].machine, visits[j].machine, visits[i].ap.value)
    ensures Held(visits[i], visits[j])
    ensures visits[j].machine.Clock() >= visits[i].machine.Clock() + Times(j - i, retry)
    decreases j - i
  {
    if i < j {
      var a, b, c := visits[i], visits[j - 1], visits[j];
      assert HoldsAt(visits, retry, j - 1);
      HoldingForward(visits, retry, i, j - 1);
      UndisturbedUntil(a.machine, b.machine, c.machine, a.ap.value);
      HoldingHolds(visits, retry, i, j - 1);
      HoldOneMore(a, b, c, retry);
      assert Times(j - i, retry) == Times(j - 1 - i, retry) + retry;
    }
  }

  /** As long as client.conf is not found and neither daemon gives out on its own, the access point is
      held: the state, the session, every process and every notice stay as they are, nothing is done
      but to look, and at least the retry interval passes in each turn. */
  lemma HeldForever(t: SuperviseTuning, hook: string, visits: seq<Boundary>, events: seq<Event>, i: nat, j: nat)
    requires IsRun(t, hook, visits, events) && i <= j < |visits|
    requires visits[i].state == FallbackAp && visits[i].ap.Some?
    requires Undisturbed(visits[i].machine, visits[j].machine, visits[i].ap.value)
    ensures visits[j].state == FallbackAp && visits[j].ap == visits[i].ap
    ensures HeldMachine(visits[i].machine, visits[j].machine, visits[i].ap.value)
    ensures visits[j].machine.Clock() >= visits[i].machine.Clock() + (j - i) * (t.apRetrySec * 1000)
  {
    ReadyExactlyOnce(t, hook, visits, events, i);
    RunHolds(t, hook, visits, events);
    HoldingHolds(visits, t.apRetrySec * 1000, i, j);
    TimesIsProduct(j - i, t.apRetrySec * 1000);
  }
}
