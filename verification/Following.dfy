/** What a turn saw decides where it leads, whatever table it was looked up in. */
module Following {
  import opened Wrappers
  import opened StateMachine
  import opened World
  import opened Daemons
  import opened Tuning
  import opened Client
  import opened Ap
  import opened Visits
  import opened Hook
  import opened Runs
  import opened RunProperties
  import opened Holding
  import opened Downtime

  /** An action on one child, or none that looks at anything. */
  predicate About(a: Action, pid: Pid) {
    match a
    case Spawned(p) => p == pid
    case Signalled(p, _) => p == pid
    case FoundRunning(p) => p == pid
    case Collected(p) => p == pid
    case WaitFailed(p) => p == pid
    case Refused(_) => true
    case Slept(_) => true
    case _ => false
  }

  ghost predicate AllAbout(log: seq<Action>, pid: Pid) {
    forall a :: a in log ==> About(a, pid)
  }

  lemma {:induction false} PollsAreAbout(count: nat, pid: Pid)
    ensures AllAbout(Polls(count, pid), pid)
  {
    if count > 0 {
      PollsAreAbout(count - 1, pid);
    }
  }

  lemma AboutConcat(a: seq<Action>, b: seq<Action>, pid: Pid)
    requires AllAbout(a, pid) && AllAbout(b, pid)
    ensures AllAbout(a + b, pid)
  {
  }

  lemma {:induction false} VainPollsAreAbout(polls: seq<Action>, pid: Pid)
    requires VainPolls(polls, pid)
    ensures AllAbout(polls, pid)
  {
    if polls != [] {
      var n := |polls| - 2;
      VainPollsAreAbout(polls[..n], pid);
      AboutConcat(polls[..n], [polls[n], polls[n + 1]], pid);
      assert polls == polls[..n] + [polls[n], polls[n + 1]];
    }
  }

  lemma NotifyIsAbout(log: seq<Action>, h: Pid)
    requires NotifyLog(log, h)
    ensures AllAbout(log, h)
  {
    if log != [] && log != [Refused(StateHook)] {
      var count: nat, end :| Hook.RunEnd(end, h) && log == [Spawned(h)] + Polls(count, h) + end;
      PollsAreAbout(count, h);
      if end != [Collected(h)] && end != [WaitFailed(h)] {
        var rest :| EscalationLog(rest, h) && end == [FoundRunning(h)] + rest;
        EscalationIsAbout(rest, h);
      }
    }
  }

  lemma EscalationIsAbout(log: seq<Action>, h: Pid)
    requires EscalationLog(log, h)
    ensures AllAbout(log, h)
  {
    var count: nat, end :| GraceEnd(end, h) && log == [Signalled(h, Term)] + Polls(count, h) + end;
    PollsAreAbout(count, h);
  }

  lemma StopIsAbout(log: seq<Action>, pid: Pid)
    requires AnyStopLog(log, pid)
    ensures AllAbout(log, pid)
  {
    if log != [] && log != [Collected(pid)] {
      var first, polls, end :| Vain(first, pid) && VainPolls(polls, pid) && StopEnd(end, pid)
                               && log == [first, Signalled(pid, Term)] + polls + end;
      VainPollsAreAbout(polls, pid);
    }
  }

  /** Nothing that finds out whether there is a network to join. */
  predicate Blind(a: Action) {
    !a.LookedForConf? && !a.LookedForAddress?
  }

  ghost predicate AllBlind(log: seq<Action>) {
    forall a :: a in log ==> Blind(a)
  }

  lemma StopIsBlind(log: seq<Action>, pid: Pid)
    requires AnyStopLog(log, pid)
    ensures AllBlind(log)
  {
    StopIsAbout(log, pid);
  }

  lemma BlindConcat(a: seq<Action>, b: seq<Action>)
    requires AllBlind(a) && AllBlind(b)
    ensures AllBlind(a + b)
  {
  }

  lemma DropIsBlind(log: seq<Action>, hostapd: Pid, dnsmasq: Pid)
    requires DropLog(log, hostapd, dnsmasq)
    ensures AllBlind(log)
  {
    var first, second, third, fourth :|
      AnyStopLog(first, hostapd) && AnyStopLog(second, dnsmasq)
      && AnyStopLog(third, hostapd) && AnyStopLog(fourth, dnsmasq)
      && log == first + second + [AddressesFlushed] + third + fourth;
    StopIsBlind(first, hostapd);
    StopIsBlind(second, dnsmasq);
    StopIsBlind(third, hostapd);
    StopIsBlind(fourth, dnsmasq);
    BlindConcat(first, second);
    BlindConcat(first + second, [AddressesFlushed]);
    BlindConcat(first + second + [AddressesFlushed], third);
    BlindConcat(first + second + [AddressesFlushed] + third, fourth);
  }

  // A client cycle finds an address exactly when it ends in a connection.

  lemma FailedAttemptFindsNone(part: seq<Action>)
    requires FailedAttempt(part)
    ensures LookedForAddress(true) !in part && part != [] && part[0] == LookedForConf(true)
  {
    var rest, supplicant :| FailedStationLog(rest, supplicant) && part == [LookedForConf(true)] + rest;
    if !(rest <= STATION_STEPS) && rest != STATION_STEPS + [Refused(WpaSupplicant)] {
      var stop :| StopLog(stop, supplicant) && rest == StationLog(supplicant, false) + stop;
      StopIsAbout(stop, supplicant);
    }
  }

  lemma {:induction false} PausedAttemptsFindNone(parts: seq<seq<Action>>, pause: nat)
    requires FailedAttempts(parts)
    ensures LookedForAddress(true) !in WithPauses(parts, pause)
    ensures parts != [] ==> WithPauses(parts, pause) != [] && WithPauses(parts, pause)[0] == LookedForConf(true)
  {
    if parts != [] {
      PausedAttemptsFindNone(parts[..|parts| - 1], pause);
      FailedAttemptFindsNone(parts[|parts| - 1]);
    }
  }

  lemma CycleFindsAddress(log: seq<Action>, t: SuperviseTuning, event: Event, parts: seq<seq<Action>>)
    requires CycleLog(log, t, event, parts)
    ensures LookedForAddress(true) in log <==> event == ClientConnected
    ensures (event == ClientFailed && parts == []) || (log != [] && log[0].LookedForConf?)
  {
    var pause := t.retrySec * 1000;
    PausedAttemptsFindNone(parts, pause);
    match event {
      case ClientConnected =>
        var supplicant :| log == WithPauses(parts, pause) + ([LookedForConf(true)] + StationLog(supplicant, true));
        assert StationLog(supplicant, true)[5] == LookedForAddress(true);
      case ClientFailed =>
        if parts != [] {
          PausedAttemptsFindNone(parts[..|parts| - 1], pause);
          FailedAttemptFindsNone(parts[|parts| - 1]);
        }
      case ClientConfigMissing =>
    }
  }

  /** A cycle first takes the access point down, and then looks for client.conf. */
  ghost predicate CycleBegins(seen: seq<Action>, had: Option<ApPids>) {
    exists down, present, rest :: TakenDown(down, had) && seen == down + [LookedForConf(present)] + rest
  }

  lemma TakenDownIsBlind(down: seq<Action>, had: Option<ApPids>)
    requires TakenDown(down, had)
    ensures AllBlind(down)
  {
    if had.Some? {
      DropIsBlind(down, had.value.hostapd, had.value.dnsmasq);
    }
  }

  lemma CycleParts(before: Machine, m: Machine, t: SuperviseTuning, event: Event, parts: seq<seq<Action>>,
                   had: Option<ApPids>)
    returns (down: seq<Action>, cycle: seq<Action>)
    requires CycleDone(before, m, t, event, parts, had)
    ensures TakenDown(down, had) && CycleLog(cycle, t, event, parts) && Since(before, m) == down + cycle
  {
    down, cycle :| TakenDown(down, had) && CycleLog(cycle, t, event, parts) && Did(before, m, down + cycle);
    DidIsSince(before, m, down + cycle);
  }

  lemma NotBefore(first: seq<Action>, rest: seq<Action>, a: Action)
    requires AllBlind(first) && !Blind(a)
    ensures a in first + rest <==> a in rest
  {
  }

  lemma CycleBeginsWith(down: seq<Action>, cycle: seq<Action>, had: Option<ApPids>)
    requires TakenDown(down, had) && cycle != [] && cycle[0].LookedForConf?
    ensures CycleBegins(down + cycle, had)
  {
    assert down + cycle == down + [LookedForConf(cycle[0].present)] + cycle[1..];
  }

  lemma CycleSees(down: seq<Action>, cycle: seq<Action>, t: SuperviseTuning, event: Event, parts: seq<seq<Action>>,
                  had: Option<ApPids>)
    requires TakenDown(down, had) && CycleLog(cycle, t, event, parts)
    requires event == ClientFailed ==> parts != []
    ensures LookedForAddress(true) in down + cycle <==> event == ClientConnected
    ensures CycleBegins(down + cycle, had)
  {
    TakenDownIsBlind(down, had);
    CycleFindsAddress(cycle, t, event, parts);
    NotBefore(down, cycle, LookedForAddress(true));
    CycleBeginsWith(down, cycle, had);
  }

  // A visit to FallbackAp.

  /** The access point a visit serves with: the one there is, or the one it starts. */
  function Serving(b: Boundary): ApPids {
    if b.ap.Some? then b.ap.value else ApPids(|b.machine.procs| + 1, |b.machine.procs|)
  }

  /** One of the two daemons was seen to be gone, or could not be asked after. */
  ghost predicate FoundGone(seen: seq<Action>, pids: ApPids) {
    exists a :: a in seen && (GivesOut(a, pids.hostapd) || GivesOut(a, pids.dnsmasq))
  }

  lemma {:induction false} LooksFindNothing(count: nat, ms: nat, pids: ApPids)
    ensures AllBlind(ApLooks(count, ms, pids)) && !FoundGone(ApLooks(count, ms, pids), pids)
  {
    if count > 0 {
      LooksFindNothing(count - 1, ms, pids);
    }
  }

  lemma DeadIsGone(asked: seq<Action>, drop: seq<Action>, ms: nat, pids: ApPids)
    requires FoundDead(asked, pids) && AllBlind(drop)
    ensures AllBlind([Slept(ms)] + (asked + drop)) && FoundGone([Slept(ms)] + (asked + drop), pids)
  {
    var log := [Slept(ms)] + (asked + drop);
    assert asked == [asked[0], asked[1]];
    assert log[1] == asked[0] && log[2] == asked[1];
    var gone := if asked[0] != FoundRunning(pids.hostapd) then asked[0] else asked[1];
    assert gone in log;
    BlindConcat(asked, drop);
    BlindConcat([Slept(ms)], asked + drop);
  }

  lemma DeathIsSeen(log: seq<Action>, ms: nat, pids: ApPids)
    requires DeathLog(log, ms, pids)
    ensures AllBlind(log) && FoundGone(log, pids)
  {
    var asked, drop :|
      FoundDead(asked, pids) && DropLog(drop, pids.hostapd, pids.dnsmasq) && log == [Slept(ms)] + (asked + drop);
    DropIsBlind(drop, pids.hostapd, pids.dnsmasq);
    DeadIsGone(asked, drop, ms, pids);
  }

  lemma DeathAfterLooks(looks: seq<Action>, last: seq<Action>, pids: ApPids)
    requires AllBlind(looks) && AllBlind(last) && FoundGone(last, pids)
    ensures LookedForConf(true) !in looks + last && FoundGone(looks + last, pids)
  {
    assert !Blind(LookedForConf(true));
    var a :| a in last && (GivesOut(a, pids.hostapd) || GivesOut(a, pids.dnsmasq));
    assert a in looks + last;
  }

  lemma DyingSees(log: seq<Action>, polls: nat, ms: nat, pids: ApPids, last: seq<Action>)
    requires DeathLog(last, ms, pids) && log == ApLooks(polls, ms, pids) + last
    ensures LookedForConf(true) !in log && FoundGone(log, pids)
  {
    LooksFindNothing(polls, ms, pids);
    DeathIsSeen(last, ms, pids);
    DeathAfterLooks(ApLooks(polls, ms, pids), last, pids);
  }

  lemma HoldingSees(log: seq<Action>, polls: nat, ms: nat, pids: ApPids, present: bool)
    requires log == ApLooks(polls, ms, pids) + [LookedForConf(present)]
    ensures (LookedForConf(true) in log <==> present) && !FoundGone(log, pids)
  {
    LooksFindNothing(polls, ms, pids);
    OneLookAfter(ApLooks(polls, ms, pids), present, pids);
  }

  /** What is done beside an access point that is up, by how the visit ends. */
  ghost predicate ServingLog(log: seq<Action>, ms: nat, pids: ApPids, event: Event, polls: nat) {
    if event == ApDied then
      exists last :: DeathLog(last, ms, pids) && polls > 0 && log == ApLooks(polls - 1, ms, pids) + last
    else log == ApLooks(polls, ms, pids) + [LookedForConf(event == ApRetryDue)]
  }

  lemma ServedIsLogged(up: Machine, m: Machine, t: SuperviseTuning, pids: ApPids, has: Option<ApPids>, event: Event,
                       polls: nat)
    requires Served(up, m, t, pids, has, event, polls)
    ensures ServingLog(Since(up, m), t.linkPollSec * 1000, pids, event, polls)
    ensures has == if event == ApDied then None else Some(pids)
  {
    var ms := t.linkPollSec * 1000;
    if event == ApDied {
      var last :| DeathLog(last, ms, pids) && Did(up, m, ApLooks(polls - 1, ms, pids) + last);
      DidIsSince(up, m, ApLooks(polls - 1, ms, pids) + last);
    } else {
      DidIsSince(up, m, ApLooks(polls, ms, pids) + [LookedForConf(event == ApRetryDue)]);
    }
  }

  lemma DiedSees(log: seq<Action>, ms: nat, pids: ApPids, polls: nat)
    requires ServingLog(log, ms, pids, ApDied, polls)
    ensures LookedForConf(true) !in log && FoundGone(log, pids)
  {
    var last :| DeathLog(last, ms, pids) && polls > 0 && log == ApLooks(polls - 1, ms, pids) + last;
    DyingSees(log, polls - 1, ms, pids, last);
  }

  /** How a visit beside an access point ended can be told by what it saw. */
  ghost predicate SawHowItEnded(log: seq<Action>, pids: ApPids, event: Event) {
    && (LookedForConf(true) in log <==> event == ApRetryDue)
    && (FoundGone(log, pids) <==> event == ApDied)
  }

  lemma ServingSees(log: seq<Action>, ms: nat, pids: ApPids, event: Event, polls: nat)
    requires ServingLog(log, ms, pids, event, polls)
    ensures SawHowItEnded(log, pids, event)
  {
    if event == ApDied {
      DiedSees(log, ms, pids, polls);
    } else {
      HoldingSees(log, polls, ms, pids, event == ApRetryDue);
    }
  }

  lemma OneLookAfter(looks: seq<Action>, present: bool, pids: ApPids)
    requires AllBlind(looks) && !FoundGone(looks, pids)
    ensures LookedForConf(true) in looks + [LookedForConf(present)] <==> present
    ensures !FoundGone(looks + [LookedForConf(present)], pids)
  {
    assert !Blind(LookedForConf(true));
    assert (looks + [LookedForConf(present)])[|looks|] == LookedForConf(present);
  }

  lemma StartingSees(n: Pid, pids: ApPids)
    ensures AllBlind(START_STEPS + [Spawned(n), Spawned(n + 1)])
    ensures !FoundGone(START_STEPS + [Spawned(n), Spawned(n + 1)], pids)
  {
    assert forall a :: a in READ_STEPS ==> Blind(a) && !a.Collected? && !a.WaitFailed?;
    assert forall a :: a in AP_STEPS ==> Blind(a) && !a.Collected? && !a.WaitFailed?;
  }

  lemma RaisingSees(before: Machine, up: Machine, had: Option<ApPids>, pids: ApPids)
    requires Later(before, up) && ApReady(before, up, had, pids)
    ensures AllBlind(Since(before, up)) && !FoundGone(Since(before, up), pids)
  {
    if had == None {
      var n := |before.procs|;
      DidIsSince(before, up, START_STEPS + [Spawned(n), Spawned(n + 1)]);
      StartingSees(n, pids);
    }
  }

  // A turn: the visit, and then only the hook.

  lemma TellingSees(m: Machine, after: Machine, hook: string, from: State, next: State, announced: bool)
    requires Told(m, after, hook, from, next, announced)
    ensures AllAbout(Since(m, after), |m.procs|)
  {
    if next != from {
      NotifyIsAbout(Since(m, after), |m.procs|);
    }
  }

  lemma HookSeesNothing(seen: seq<Action>, told: seq<Action>, h: Pid, a: Action)
    requires AllAbout(told, h) && !Blind(a)
    ensures a in seen + told <==> a in seen
  {
  }

  lemma HookFindsNothingGone(seen: seq<Action>, told: seq<Action>, h: Pid, pids: ApPids)
    requires AllAbout(told, h) && pids.hostapd != h && pids.dnsmasq != h
    ensures FoundGone(seen + told, pids) <==> FoundGone(seen, pids)
  {
    if a :| a in seen && (GivesOut(a, pids.hostapd) || GivesOut(a, pids.dnsmasq)) {
      assert a in seen + told;
    }
  }

  /** What a turn saw, it saw before the hook was called. */
  lemma TurnSees(before: Machine, m: Machine, after: Machine)
    requires Later(before, m) && Later(m, after) && AllAbout(Since(m, after), |m.procs|)
    ensures forall a :: !Blind(a) ==> (a in Since(before, after) <==> a in Since(before, m))
    ensures forall pids: ApPids :: pids.hostapd < |m.procs| && pids.dnsmasq < |m.procs| ==>
              (FoundGone(Since(before, after), pids) <==> FoundGone(Since(before, m), pids))
  {
    SinceAddsUp(before, m, after);
    forall a | !Blind(a)
      ensures a in Since(before, after) <==> a in Since(before, m)
    {
      HookSeesNothing(Since(before, m), Since(m, after), |m.procs|, a);
    }
    forall pids: ApPids | pids.hostapd < |m.procs| && pids.dnsmasq < |m.procs|
      ensures FoundGone(Since(before, after), pids) <==> FoundGone(Since(before, m), pids)
    {
      HookFindsNothingGone(Since(before, m), Since(m, after), |m.procs|, pids);
    }
  }

  /** Where a turn leads, by what it saw, and what is held then. */
  ghost predicate Follows(b: Boundary, seen: seq<Action>, c: Boundary) {
    match b.state
    case TryClient =>
      && c.state == (if LookedForAddress(true) in seen then ClientUp else FallbackAp)
      && (c.client.Some? <==> c.state == ClientUp) && c.ap == None
      && CycleBegins(seen, b.ap)
    case ClientUp =>
      c.state == TryClient && LookedForAddress(false) in seen && c.client == None && c.ap == None
    case FallbackAp =>
      && c.state == (if LookedForConf(true) in seen then TryClient else FallbackAp)
      && c.client == None && c.ap == (if FoundGone(seen, Serving(b)) then None else Some(Serving(b)))
      && !(LookedForConf(true) in seen && FoundGone(seen, Serving(b)))
  }

  lemma CycleFollows(t: SuperviseTuning, b: Boundary, e: Event, m: Machine, c: Boundary)
    requires t.Clamped() && b.state == TryClient && c.state == NextState(b.state, e)
    requires Visited(t, b.state, b.client, b.ap, b.machine, e, c.client, c.ap, m)
    ensures c.state == if LookedForAddress(true) in Since(b.machine, m) then ClientUp else FallbackAp
    ensures (c.client.Some? <==> c.state == ClientUp) && c.ap == None
    ensures CycleBegins(Since(b.machine, m), b.ap)
  {
    var parts :| Attempted(b.machine, m, t, e, parts, b.ap);
    var down, cycle := CycleParts(b.machine, m, t, e, parts, b.ap);
    CycleSees(down, cycle, t, e, parts, b.ap);
  }

  lemma WatchFollows(t: SuperviseTuning, b: Boundary, e: Event, m: Machine, c: Boundary)
    requires b.state == ClientUp && c.state == NextState(b.state, e)
    requires Visited(t, b.state, b.client, b.ap, b.machine, e, c.client, c.ap, m)
    ensures c.state == TryClient && c.client == None && c.ap == None
    ensures LookedForAddress(false) in Since(b.machine, m)
  {
    var seen: nat :| Watched(b.machine, m, t, seen, b.client.value);
    var ms := t.linkPollSec * 1000;
    var stop :| StopLog(stop, b.client.value)
                && Did(b.machine, m, AddressLooks(seen, ms) +
                                     ([Slept(ms), LookedForAddress(false)] + (stop + [AddressesFlushed])));
    var log := AddressLooks(seen, ms) + ([Slept(ms), LookedForAddress(false)] + (stop + [AddressesFlushed]));
    DidIsSince(b.machine, m, log);
    assert log[|AddressLooks(seen, ms)| + 1] == LookedForAddress(false);
  }

  lemma ServingVisit(t: SuperviseTuning, b: Boundary, e: Event, m: Machine, client: Option<Pid>, ap: Option<ApPids>)
    returns (up: Machine, polls: nat)
    requires b.state == FallbackAp && Consistent(b)
    requires Visited(t, b.state, b.client, b.ap, b.machine, e, client, ap, m)
    ensures ApReady(b.machine, up, b.ap, Serving(b)) && Served(up, m, t, Serving(b), ap, e, polls)
    ensures Raises(FallbackAp, e) && client == None
    ensures Later(b.machine, up) && Later(up, m)
    ensures Serving(b).hostapd < |m.procs| && Serving(b).dnsmasq < |m.procs|
  {
    var pids;
    up, pids, polls :| ApReady(b.machine, up, b.ap, pids) && Served(up, m, t, pids, ap, e, polls);
    RaisedIsServing(b, up, pids);
    ServedIsLater(up, m, t, pids, ap, e, polls);
  }

  lemma ServeFollows(t: SuperviseTuning, b: Boundary, e: Event, m: Machine, c: Boundary)
    requires b.state == FallbackAp && c.state == NextState(b.state, e) && Consistent(b)
    requires Visited(t, b.state, b.client, b.ap, b.machine, e, c.client, c.ap, m)
    ensures Serving(b).hostapd < |m.procs| && Serving(b).dnsmasq < |m.procs|
    ensures var seen := Since(b.machine, m);
            && c.state == (if LookedForConf(true) in seen then TryClient else FallbackAp)
            && c.client == None && c.ap == (if FoundGone(seen, Serving(b)) then None else Some(Serving(b)))
            && !(LookedForConf(true) in seen && FoundGone(seen, Serving(b)))
  {
    var up, polls := ServingVisit(t, b, e, m, c.client, c.ap);
    RaisingSees(b.machine, up, b.ap, Serving(b));
    ServedIsLogged(up, m, t, Serving(b), c.ap, e, polls);
    ServingSees(Since(up, m), t.linkPollSec * 1000, Serving(b), e, polls);
    SinceAddsUp(b.machine, up, m);
    SeenInEither(Since(b.machine, up), Since(up, m), Serving(b));
  }

  lemma ServedIsLater(up: Machine, m: Machine, t: SuperviseTuning, pids: ApPids, has: Option<ApPids>, event: Event,
                      polls: nat)
    requires Served(up, m, t, pids, has, event, polls)
    ensures Later(up, m) && |up.procs| <= |m.procs|
  {
  }

  lemma RaisedIsServing(b: Boundary, up: Machine, pids: ApPids)
    requires Consistent(b) && ApReady(b.machine, up, b.ap, pids)
    ensures pids == Serving(b) && Later(b.machine, up)
    ensures pids.hostapd < |up.procs| && pids.dnsmasq < |up.procs|
  {
  }

  lemma SeenInEither(a: seq<Action>, b: seq<Action>, pids: ApPids)
    requires AllBlind(a) && !FoundGone(a, pids)
    ensures LookedForConf(true) in a + b <==> LookedForConf(true) in b
    ensures FoundGone(a + b, pids) <==> FoundGone(b, pids)
  {
    assert !Blind(LookedForConf(true));
    if x :| x in b && (GivesOut(x, pids.hostapd) || GivesOut(x, pids.dnsmasq)) {
      assert x in a + b;
    }
  }

  lemma TurnFollows(t: SuperviseTuning, hook: string, b: Boundary, e: Event, c: Boundary)
    requires t.Clamped() && Consistent(b) && Turn(t, hook, b, e, c)
    ensures Follows(b, Since(b.machine, c.machine), c)
  {
    var m :| Visited(t, b.state, b.client, b.ap, b.machine, e, c.client, c.ap, m)
             && Told(m, c.machine, hook, b.state, c.state, b.announced);
    TellingSees(m, c.machine, hook, b.state, c.state, b.announced);
    TurnSees(b.machine, m, c.machine);
    assert !Blind(LookedForConf(true)) && !Blind(LookedForAddress(true)) && !Blind(LookedForAddress(false));
    match b.state {
      case TryClient =>
        CycleFollows(t, b, e, m, c);
        SinceAddsUp(b.machine, m, c.machine);
        CycleBeginsStill(Since(b.machine, m), Since(m, c.machine), b.ap);
      case ClientUp => WatchFollows(t, b, e, m, c);
      case FallbackAp => ServeFollows(t, b, e, m, c);
    }
  }

  lemma CycleBeginsStill(seen: seq<Action>, more: seq<Action>, had: Option<ApPids>)
    requires CycleBegins(seen, had)
    ensures CycleBegins(seen + more, had)
  {
    var down, present, rest :| TakenDown(down, had) && seen == down + [LookedForConf(present)] + rest;
    assert seen + more == down + [LookedForConf(present)] + (rest + more);
  }
  /** What was done between two boundaries of a run. */
  ghost function Seen(visits: seq<Boundary>, i: nat): seq<Action>
    requires i + 1 < |visits|
  {
    Since(visits[i].machine, visits[i + 1].machine)
  }

  /** In every run, what a turn saw decides which state comes next and what is held in it; and the
      hook hears of it exactly when the state changed. */
  lemma RunFollows(t: SuperviseTuning, hook: string, visits: seq<Boundary>, events: seq<Event>, i: nat)
    requires t.Clamped() && IsRun(t, hook, visits, events) && i < |events|
    ensures Follows(visits[i], Seen(visits, i), visits[i + 1])
    ensures Hooks(visits[i + 1].machine.notices) ==
            Hooks(visits[i].machine.notices) +
            if visits[i + 1].state != visits[i].state then [visits[i + 1].state] else []
  {
    var b, c := visits[i], visits[i + 1];
    assert TurnAt(t, hook, visits, events, i);
    TurnFollows(t, hook, b, events[i], c);
    TurnTells(b.machine.notices, b.state, b.announced, c.state);
  }

  /** The hook's last word. */
  ghost predicate LastTold(b: Boundary, state: State) {
    var hooks := Hooks(b.machine.notices);
    hooks != [] && hooks[|hooks| - 1] == state
  }

  /** A turn beside an access point that finds client.conf leaves that access point up and leads to
      TryClient, of which the hook hears; the next turn takes that access point down, and then looks
      for client.conf. */
  lemma RetryIsMade(t: SuperviseTuning, hook: string, visits: seq<Boundary>, events: seq<Event>, i: nat)
    requires t.Clamped() && IsRun(t, hook, visits, events) && i < |events|
    requires visits[i].state == FallbackAp && LookedForConf(true) in Seen(visits, i)
    ensures visits[i + 1].state == TryClient && visits[i + 1].ap == Some(Serving(visits[i]))
    ensures LastTold(visits[i + 1], TryClient)
    ensures i + 1 < |events| ==> CycleBegins(Seen(visits, i + 1), Some(Serving(visits[i])))
  {
    RunFollows(t, hook, visits, events, i);
    if i + 1 < |events| {
      RunFollows(t, hook, visits, events, i + 1);
    }
  }

  /** A turn that finds a daemon of its access point gone leads to FallbackAp without an access point,
      and tells the hook nothing; the next turn starts another one, or is not completed. */
  lemma DeadApIsReplaced(t: SuperviseTuning, hook: string, visits: seq<Boundary>, events: seq<Event>, i: nat)
    returns (k: nat)
    requires t.Clamped() && IsRun(t, hook, visits, events) && i < |events|
    requires visits[i].state == FallbackAp && FoundGone(Seen(visits, i), Serving(visits[i]))
    ensures visits[i + 1].state == FallbackAp && visits[i + 1].ap == None
    ensures Hooks(visits[i + 1].machine.notices) == Hooks(visits[i].machine.notices)
    ensures i + 1 < |events| ==> HostapdStarted(visits[i + 1].machine, visits[i + 2].machine, k)
  {
    RunFollows(t, hook, visits, events, i);
    k := 0;
    if i + 1 < |events| {
      var b, c := visits[i + 1], visits[i + 2];
      assert TurnAt(t, hook, visits, events, i + 1);
      var up, pids := StartingTurn(t, hook, b, events[i + 1], c);
      UpIsInHistory(b.machine, up, c.machine);
      k := |up.trace| - 1;
    }
  }

  /** A connection only ends in a look that finds no address, and leads straight to TryClient, of which
      the hook hears; the next turn first of all looks for client.conf. */
  lemma LostLinkIsRetried(t: SuperviseTuning, hook: string, visits: seq<Boundary>, events: seq<Event>, i: nat)
    requires t.Clamped() && IsRun(t, hook, visits, events) && i < |events| && visits[i].state == ClientUp
    ensures LookedForAddress(false) in Seen(visits, i)
    ensures visits[i + 1].state == TryClient && visits[i + 1].client == None && visits[i + 1].ap == None
    ensures LastTold(visits[i + 1], TryClient)
    ensures i + 1 < |events| ==> Seen(visits, i + 1) != [] && Seen(visits, i + 1)[0].LookedForConf?
  {
    RunFollows(t, hook, visits, events, i);
    if i + 1 < |events| {
      RunFollows(t, hook, visits, events, i + 1);
    }
  }

  /** A client cycle leads to ClientUp, holding the connection, exactly when it found an address, and
      to FallbackAp, holding nothing, exactly when it did not; the hook hears which. */
  lemma CycleIsSettled(t: SuperviseTuning, hook: string, visits: seq<Boundary>, events: seq<Event>, i: nat)
    requires t.Clamped() && IsRun(t, hook, visits, events) && i < |events| && visits[i].state == TryClient
    ensures var c := visits[i + 1];
            && c.state == (if LookedForAddress(true) in Seen(visits, i) then ClientUp else FallbackAp)
            && (c.client.Some? <==> LookedForAddress(true) in Seen(visits, i)) && c.ap == None
            && LastTold(c, c.state)
  {
    RunFollows(t, hook, visits, events, i);
  }
}
