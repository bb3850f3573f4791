/** What one visit to each state of the machine may do. */
module Visits {
  import opened Wrappers
  import opened StateMachine
  import opened Amounts
  import opened World
  import opened Daemons
  import opened Tuning
  import opened Client
  import opened Ap

  /** The two daemons of a running access point. */
  datatype ApPids = ApPids(hostapd: Pid, dnsmasq: Pid)

  /** Only these processes may be running daemons. */
  ghost predicate OnlyLive(table: seq<Process>, owned: set<Pid>) {
    forall i :: 0 <= i < |table| && LiveDaemon(table[i]) ==> i in owned
  }

  /** Time and processes only ever move forward: nothing recorded is lost, no process is forgotten
      or changes kind, and a process that is not running never runs again. */
  ghost predicate Forward(before: Machine, after: Machine) {
    && |before.procs| <= |after.procs|
    && Later(before, after)
    && before.slept <= after.slept
    && before.late <= after.late
    && before.commands <= after.commands
    && before.leases <= after.leases
    && before.faults <= after.faults
    && before.refusals <= after.refusals
    && before.notices <= after.notices
    && forall i :: 0 <= i < |before.procs| ==>
                     && after.procs[i].kind == before.procs[i].kind
                     && (after.procs[i].phase == Live ==> before.procs[i].phase == Live)
  }

  lemma ForwardTransitive(a: Machine, b: Machine, c: Machine)
    requires Forward(a, b) && Forward(b, c)
    ensures Forward(a, c)
  {
  }

  /** Neither daemon of this access point is running. */
  ghost predicate NotLive(m: Machine, pids: ApPids) {
    && pids.hostapd < |m.procs| && m.procs[pids.hostapd].phase != Live
    && pids.dnsmasq < |m.procs| && m.procs[pids.dnsmasq].phase != Live
  }

  // TryClient: a cycle of connection attempts.

  /** The sleeping that so many daemon stops and pauses between attempts may do. */
  function CycleLimit(t: SuperviseTuning, stops: nat, pauses: nat): nat {
    Times(stops, TERM_GRACE) + PauseTime(t, pauses)
  }

  function PauseTime(t: SuperviseTuning, pauses: nat): nat {
    Times(pauses, t.retrySec * 1000)
  }

  /** How many daemon stops and how many flushes it takes to take an access point down. */
  function ApStops(ap: Option<ApPids>): nat {
    if ap == None then 0 else 4
  }

  function ApFlushes(ap: Option<ApPids>): nat {
    if ap == None then 0 else 1
  }

  /** The sleeping of a cycle: all of its pauses, and besides them only what so many stops allow. */
  ghost predicate Paused(before: Machine, after: Machine, t: SuperviseTuning, stops: nat, pauses: nat) {
    before.slept + PauseTime(t, pauses) <= after.slept <= before.slept + CycleLimit(t, stops, pauses)
  }

  /** Attempts one after the other, with a pause between any two. */
  function Joined(parts: seq<seq<Action>>, pause: nat): seq<Action> {
    if parts == [] then [] else WithPauses(parts[..|parts| - 1], pause) + parts[|parts| - 1]
  }

  /** Attempts one after the other, each with a pause after it. */
  function WithPauses(parts: seq<seq<Action>>, pause: nat): seq<Action> {
    if parts == [] then []
    else WithPauses(parts[..|parts| - 1], pause) + parts[|parts| - 1] + [Slept(pause)]
  }

  /** Failed attempts so far; `more` says that another is to follow, for which there was a pause. */
  function AttemptsLog(parts: seq<seq<Action>>, pause: nat, more: bool): seq<Action> {
    if more then WithPauses(parts, pause) else Joined(parts, pause)
  }

  lemma OneMorePart(parts: seq<seq<Action>>, part: seq<Action>, pause: nat, more: bool)
    ensures AttemptsLog(parts + [part], pause, more) ==
            WithPauses(parts, pause) + (part + if more then [Slept(pause)] else [])
  {
    assert (parts + [part])[..|parts|] == parts;
  }

  /** A failed attempt looked for client.conf, found it, and did not get as far as an address. */
  ghost predicate FailedAttempt(part: seq<Action>) {
    exists rest, supplicant :: FailedStationLog(rest, supplicant) && part == [LookedForConf(true)] + rest
  }

  ghost predicate FailedAttempts(parts: seq<seq<Action>>) {
    forall k :: 0 <= k < |parts| ==> FailedAttempt(parts[k])
  }

  /** The actions of a cycle that ended in `event` after these failed attempts. */
  ghost predicate CycleLog(log: seq<Action>, t: SuperviseTuning, event: Event, parts: seq<seq<Action>>) {
    var pause := t.retrySec * 1000;
    && FailedAttempts(parts)
    && match event
       case ClientConnected =>
         exists supplicant ::
           log == WithPauses(parts, pause) + ([LookedForConf(true)] + StationLog(supplicant, true))
       case ClientFailed => log == Joined(parts, pause)
       case ClientConfigMissing => log == WithPauses(parts, pause) + [LookedForConf(false)]
       case _ => false
  }

  /** An access point that was up has been taken down. */
  ghost predicate TakenDown(log: seq<Action>, had: Option<ApPids>) {
    if had == None then log == [] else DropLog(log, had.value.hostapd, had.value.dnsmasq)
  }

  /** The access point, if there was one, was taken down, and then a cycle was run. */
  ghost predicate CycleDone(before: Machine, after: Machine, t: SuperviseTuning, event: Event,
                            parts: seq<seq<Action>>, had: Option<ApPids>) {
    exists down, cycle ::
      TakenDown(down, had) && CycleLog(cycle, t, event, parts) && Did(before, after, down + cycle)
  }

  /** How many attempts a cycle made: the failed ones, and the one that succeeded. */
  function Attempts(event: Event, parts: seq<seq<Action>>): nat {
    if event == ClientConnected then |parts| + 1 else |parts|
  }

  /** How many pauses it made: one after each failed attempt, but none after the last attempt. */
  function Pauses(event: Event, parts: seq<seq<Action>>): nat {
    if event == ClientFailed && parts != [] then |parts| - 1 else |parts|
  }

  /** A client cycle ended in `event`; `parts` are its failed attempts and `had` is the access point
      that it first took down. Every failed attempt met one refusal and stopped at most one
      supplicant, and there is a pause between any two attempts. */
  ghost predicate Attempted(before: Machine, after: Machine, t: SuperviseTuning, event: Event,
                            parts: seq<seq<Action>>, had: Option<ApPids>) {
    && Attempts(event, parts) <= t.clientAttempts
    && (event == ClientFailed ==> |parts| == t.clientAttempts)
    && (event == ClientConfigMissing ==> |parts| < t.clientAttempts)
    && CycleDone(before, after, t, event, parts, had)
    && CycleCost(before, after, t, |parts|, Attempts(event, parts), had)
    && (event == ClientConnected ==> |after.leases| > |before.leases|)
    && Paused(before, after, t, ApStops(had) + |parts|, Pauses(event, parts))
  }

  /** The commands, leases and refusals of so many attempts and of taking the access point down. */
  ghost predicate CycleCost(before: Machine, after: Machine, t: SuperviseTuning, failed: nat, attempts: nat,
                            had: Option<ApPids>) {
    && Errands(before, after, t, ApFlushes(had) + Times(attempts, STATION_COMMANDS), attempts)
    && before.refusals + failed <= after.refusals <= before.refusals + failed + ApFlushes(had)
  }

  /** So many attempts failed. */
  ghost predicate Tried(before: Machine, after: Machine, t: SuperviseTuning, parts: seq<seq<Action>>, more: bool) {
    var failed := |parts|;
    && Forward(before, after)
    && after.notices == before.notices
    && FailedAttempts(parts)
    && Did(before, after, AttemptsLog(parts, t.retrySec * 1000, more))
    && after.refusals == before.refusals + failed
    && Errands(before, after, t, Times(failed, STATION_COMMANDS), failed)
    && Paused(before, after, t, failed, if more || failed == 0 then failed else failed - 1)
  }

  /** One attempt, up to and including its cleaning up and the pause after it: a failed one met
      exactly one refusal. */
  ghost predicate AttemptedOnce(before: Machine, after: Machine, t: SuperviseTuning, r: ConnectResult, pause: bool) {
    && Forward(before, after)
    && after.notices == before.notices
    && after.refusals == before.refusals + NoCount(!r.Failed?)
    && Errands(before, after, t, STATION_COMMANDS, 1)
    && match r
       case Connected(_) =>
         && Did(before, after, [LookedForConf(true)] + StationLog(|before.procs|, true))
         && |after.leases| == |before.leases| + 1
         && after.slept == before.slept
       case NoConfig => after == Record(before, LookedForConf(false))
       case Failed =>
         && var ms := t.retrySec * 1000;
         && (exists part :: FailedAttempt(part) && Did(before, after, part + if pause then [Slept(ms)] else []))
         && var paused := before.slept + if pause then ms else 0;
         paused <= after.slept <= paused + TERM_GRACE
  }

  lemma StationIsOwned(before: Machine, up: Machine, attempts: nat)
    requires Quiet(before.procs) && StationUp(before, up, attempts, true)
    ensures OnlyLive(up.procs, {|before.procs|}) && up.procs[|before.procs|].phase == Live
  {
  }

  lemma ConnectedOnce(before: Machine, after: Machine, t: SuperviseTuning, r: ConnectResult)
    requires r.Connected? && StationUp(Record(before, LookedForConf(true)), after, DhcpAttempts(t), true)
    ensures AttemptedOnce(before, after, t, r, false)
  {
    var looked := Record(before, LookedForConf(true));
    DidMore(before, looked, after, [LookedForConf(true)], StationLog(|before.procs|, true));
  }

  lemma FailedOnce(before: Machine, failed: Machine, after: Machine, t: SuperviseTuning, pause: bool)
    requires Quiet(before.procs)
    requires var looked := Record(before, LookedForConf(true));
             && Abandoned(looked, failed, WpaSupplicant)
             && FailedStationLog(Since(looked, failed), |looked.procs|)
             && Errands(looked, failed, t, STATION_COMMANDS, 1)
    requires if pause then OnlySlept(failed, after, t.retrySec * 1000) else after == failed
    ensures AttemptedOnce(before, after, t, ConnectResult.Failed, pause)
  {
    var looked, ms := Record(before, LookedForConf(true)), t.retrySec * 1000;
    var rest := Since(looked, failed);
    SinceIsDone(looked, failed);
    DidMore(before, looked, failed, [LookedForConf(true)], rest);
    var part := [LookedForConf(true)] + rest;
    assert FailedAttempt(part);
    DidMore(before, failed, after, part, if pause then [Slept(ms)] else []);
  }

  lemma TriedOnceMore(before: Machine, tried: Machine, after: Machine, t: SuperviseTuning, parts: seq<seq<Action>>,
                      pause: bool)
    returns (parts': seq<seq<Action>>)
    requires Tried(before, tried, t, parts, true)
    requires AttemptedOnce(tried, after, t, ConnectResult.Failed, pause)
    ensures |parts'| == |parts| + 1 && Tried(before, after, t, parts', pause)
  {
    var n, ms := |parts|, t.retrySec * 1000;
    var part :| FailedAttempt(part) && Did(tried, after, part + if pause then [Slept(ms)] else []);
    parts' := parts + [part];
    OneMorePart(parts, part, ms, pause);
    DidMore(before, tried, after, WithPauses(parts, ms), part + if pause then [Slept(ms)] else []);
    ForwardTransitive(before, tried, after);
    ErrandsAddUp(before, tried, after, t, Times(n, STATION_COMMANDS), n, STATION_COMMANDS, 1);
  }

  lemma TriedAndFailed(before: Machine, after: Machine, t: SuperviseTuning, parts: seq<seq<Action>>)
    requires |parts| == t.clientAttempts && Tried(before, after, t, parts, false)
    ensures Attempted(before, after, t, ClientFailed, parts, None)
    ensures Forward(before, after) && after.notices == before.notices
  {
    CycleAlone(before, after, t, ClientFailed, parts, Joined(parts, t.retrySec * 1000));
  }

  lemma CycleAlone(before: Machine, after: Machine, t: SuperviseTuning, event: Event, parts: seq<seq<Action>>,
                   cycle: seq<Action>)
    requires CycleLog(cycle, t, event, parts) && Did(before, after, cycle)
    ensures CycleDone(before, after, t, event, parts, None)
  {
    var down: seq<Action> := [];
    assert TakenDown(down, None);
    assert down + cycle == cycle;
  }

  lemma TriedAndMissing(before: Machine, tried: Machine, after: Machine, t: SuperviseTuning, parts: seq<seq<Action>>)
    requires Tried(before, tried, t, parts, true) && |parts| < t.clientAttempts
    requires AttemptedOnce(tried, after, t, NoConfig, false)
    ensures Attempted(before, after, t, ClientConfigMissing, parts, None)
    ensures Forward(before, after) && after.notices == before.notices
  {
    ForwardTransitive(before, tried, after);
    var ms := t.retrySec * 1000;
    assert Did(tried, after, [LookedForConf(false)]);
    DidMore(before, tried, after, WithPauses(parts, ms), [LookedForConf(false)]);
    CycleAlone(before, after, t, ClientConfigMissing, parts, WithPauses(parts, ms) + [LookedForConf(false)]);
  }

  lemma TriedAndConnected(before: Machine, tried: Machine, after: Machine, t: SuperviseTuning, parts: seq<seq<Action>>,
                          r: ConnectResult)
    requires Tried(before, tried, t, parts, true) && |parts| < t.clientAttempts
    requires r.Connected? && AttemptedOnce(tried, after, t, r, false)
    ensures Attempted(before, after, t, ClientConnected, parts, None)
    ensures Forward(before, after) && after.notices == before.notices
  {
    ForwardTransitive(before, tried, after);
    var n, ms, last := |parts|, t.retrySec * 1000, [LookedForConf(true)] + StationLog(|tried.procs|, true);
    DidMore(before, tried, after, WithPauses(parts, ms), last);
    CycleAlone(before, after, t, ClientConnected, parts, WithPauses(parts, ms) + last);
    ErrandsAddUp(before, tried, after, t, Times(n, STATION_COMMANDS), n, STATION_COMMANDS, 1);
  }

  /** Taking the access point down first adds its own stops and its flush to a cycle. */
  lemma AttemptedAfterStop(before: Machine, stopped: Machine, after: Machine, t: SuperviseTuning, event: Event,
                           parts: seq<seq<Action>>, had: Option<ApPids>)
    requires Attempted(stopped, after, t, event, parts, None)
    requires had.Some? && Dropped(before, stopped, had.value.hostapd, had.value.dnsmasq)
    ensures Attempted(before, after, t, event, parts, had)
  {
    CycleAfterStop(before, stopped, after, t, event, parts, had);
    CostAfterStop(before, stopped, after, t, |parts|, Attempts(event, parts), had);
    PausedAfterStop(before, stopped, after, t, |parts|, Pauses(event, parts), had);
    AttemptedElsewhere(before, stopped, after, t, event, parts, had);
  }

  lemma AttemptedElsewhere(before: Machine, stopped: Machine, after: Machine, t: SuperviseTuning, event: Event,
                           parts: seq<seq<Action>>, had: Option<ApPids>)
    requires Attempted(stopped, after, t, event, parts, None) && stopped.leases == before.leases
    requires CycleDone(before, after, t, event, parts, had)
    requires CycleCost(before, after, t, |parts|, Attempts(event, parts), had)
    requires Paused(before, after, t, ApStops(had) + |parts|, Pauses(event, parts))
    ensures Attempted(before, after, t, event, parts, had)
  {
  }

  lemma CostAfterStop(before: Machine, stopped: Machine, after: Machine, t: SuperviseTuning, failed: nat, attempts: nat,
                      had: Option<ApPids>)
    requires CycleCost(stopped, after, t, failed, attempts, None)
    requires had.Some? && Dropped(before, stopped, had.value.hostapd, had.value.dnsmasq)
    ensures CycleCost(before, after, t, failed, attempts, had)
  {
    ErrandsAddUp(before, stopped, after, t, ApFlushes(had), 0, Times(attempts, STATION_COMMANDS), attempts);
  }

  lemma PausedAfterStop(before: Machine, stopped: Machine, after: Machine, t: SuperviseTuning, stops: nat, pauses: nat,
                        had: Option<ApPids>)
    requires had.Some? && before.slept <= stopped.slept <= before.slept + 4 * TERM_GRACE
    requires Paused(stopped, after, t, stops, pauses)
    ensures Paused(before, after, t, ApStops(had) + stops, pauses)
  {
    TimesMore(4, stops, TERM_GRACE);
    TimesIsProduct(4, TERM_GRACE);
  }

  lemma CycleAfterStop(before: Machine, stopped: Machine, after: Machine, t: SuperviseTuning, event: Event,
                       parts: seq<seq<Action>>, had: Option<ApPids>)
    requires had.Some? && Dropped(before, stopped, had.value.hostapd, had.value.dnsmasq)
    requires CycleDone(stopped, after, t, event, parts, None)
    ensures CycleDone(before, after, t, event, parts, had)
  {
    var none, cycle :| TakenDown(none, None) && CycleLog(cycle, t, event, parts) && Did(stopped, after, none + cycle);
    assert none + cycle == cycle;
    var down := Since(before, stopped);
    SinceIsDone(before, stopped);
    DidMore(before, stopped, after, down, cycle);
    assert TakenDown(down, had);
  }

  // ClientUp: looks for the address.

  /** Slept and found the address, so many times. */
  ghost function AddressLooks(count: nat, ms: nat): seq<Action> {
    if count == 0 then [] else AddressLooks(count - 1, ms) + [Slept(ms), LookedForAddress(true)]
  }

  /** Nothing happened but so many looks that found the address, one interval apart. */
  ghost predicate StillConnected(before: Machine, after: Machine, t: SuperviseTuning, looks: nat) {
    var ms := t.linkPollSec * 1000;
    && after == before.(trace := after.trace, marks := after.marks, slept := after.slept, late := after.late,
                        commands := after.commands)
    && Did(before, after, AddressLooks(looks, ms))
    && after.slept == before.slept + Times(looks, ms)
    && before.late <= after.late
    && before.commands <= after.commands && |after.commands| == |before.commands| + looks
  }

  lemma OneMoreAddressLook(before: Machine, m: Machine, slept: Machine, after: Machine, t: SuperviseTuning, looks: nat)
    requires StillConnected(before, m, t, looks)
    requires OnlySlept(m, slept, t.linkPollSec * 1000) && OnlyRan(slept, after, LookedForAddress(true), true)
    ensures StillConnected(before, after, t, looks + 1)
  {
    var ms := t.linkPollSec * 1000;
    assert Did(m, after, [Slept(ms), LookedForAddress(true)]);
    DidMore(before, m, after, AddressLooks(looks, ms), [Slept(ms), LookedForAddress(true)]);
  }

  /** A connection was lost at the first look without an address, after so many with one, each an
      interval after the one before; then the supplicant was stopped and the addresses flushed. */
  ghost predicate Watched(before: Machine, after: Machine, t: SuperviseTuning, seen: nat, supplicant: Pid) {
    var ms := t.linkPollSec * 1000;
    && (exists stop ::
          && StopLog(stop, supplicant)
          && Did(before, after, AddressLooks(seen, ms) +
                                ([Slept(ms), LookedForAddress(false)] + (stop + [AddressesFlushed]))))
    && before.refusals + 1 <= after.refusals <= before.refusals + 2
    && before.slept + Times(seen + 1, ms) <= after.slept <= before.slept + Times(seen + 1, ms) + TERM_GRACE
  }

  lemma LostIsWatched(before: Machine, looked: Machine, slept: Machine, lost: Machine, after: Machine,
                      t: SuperviseTuning, seen: nat, supplicant: Pid)
    requires StillConnected(before, looked, t, seen)
    requires OnlySlept(looked, slept, t.linkPollSec * 1000) && OnlyRan(slept, lost, LookedForAddress(false), false)
    requires exists stop :: StopLog(stop, supplicant) && Did(lost, after, stop + [AddressesFlushed])
    requires lost.slept <= after.slept <= lost.slept + TERM_GRACE
    requires lost.refusals <= after.refusals <= lost.refusals + 1
    ensures Watched(before, after, t, seen, supplicant)
  {
    var ms := t.linkPollSec * 1000;
    var stop :| StopLog(stop, supplicant) && Did(lost, after, stop + [AddressesFlushed]);
    var look := [Slept(ms), LookedForAddress(false)];
    assert Did(looked, lost, look);
    DidMore(looked, lost, after, look, stop + [AddressesFlushed]);
    DidMore(before, looked, after, AddressLooks(seen, ms), look + (stop + [AddressesFlushed]));
  }

  // FallbackAp: an access point is started if there is none, and looked at.

  /** What is read before an access point is started: who the robot is, and how to serve. */
  const READ_STEPS: seq<Action> := [IdentityRead, ApConfRead]

  /** Every command that starts an access point. */
  const START_STEPS: seq<Action> := READ_STEPS + AP_STEPS

  /** How an access point comes up from nothing: first the two settings files are read, robot.conf before
      fallback-ap.conf. */
  ghost predicate RaisedAfresh(log: seq<Action>, pids: ApPids) {
    && |log| == 10
    && First(log, IdentityRead) == 0 && First(log, ApConfRead) == 1
    && BroughtUp(log[2..], pids.hostapd, pids.dnsmasq)
  }

  lemma StartStepsRaise(n: Pid)
    ensures RaisedAfresh(START_STEPS + [Spawned(n), Spawned(n + 1)], ApPids(n + 1, n))
  {
    var rest := AP_STEPS + [Spawned(n), Spawned(n + 1)];
    var log := START_STEPS + [Spawned(n), Spawned(n + 1)];
    assert log == READ_STEPS + rest;
    assert log[2..] == rest;
    ApStepsBringUp(n);
    FirstIs(log, IdentityRead, 0);
    FirstIs(log, ApConfRead, 1);
  }

  /** The access point is up at `up`: it was all along, or it has been brought up since `before`. */
  ghost predicate ApReady(before: Machine, up: Machine, had: Option<ApPids>, pids: ApPids) {
    match had
    case Some(kept) => up == before && pids == kept
    case None => ApUp(before, up, START_STEPS) && pids == ApPids(|before.procs| + 1, |before.procs|)
  }

  lemma ApIsOwned(before: Machine, up: Machine)
    requires Quiet(before.procs) && ApUp(before, up, AP_STEPS)
    ensures var n := |before.procs|;
            OnlyLive(up.procs, {n + 1, n}) && up.procs[n].phase == Live && up.procs[n + 1].phase == Live
  {
  }

  lemma ReadThenUp(before: Machine, read: Machine, up: Machine)
    requires Prepared(before, read, READ_STEPS) && ApUp(read, up, AP_STEPS)
    ensures ApUp(before, up, START_STEPS)
    ensures Forward(before, up) && up.notices == before.notices
  {
    var n := |before.procs|;
    DidMore(before, read, up, READ_STEPS, AP_STEPS + [Spawned(n), Spawned(n + 1)]);
    assert READ_STEPS + (AP_STEPS + [Spawned(n), Spawned(n + 1)]) == START_STEPS + [Spawned(n), Spawned(n + 1)];
  }

  /** There was no access point, and a single refusal has kept one from being started; nothing that
      was begun is left running. */
  ghost predicate StartFailed(before: Machine, after: Machine) {
    && Quiet(after.procs)
    && Later(before, after)
    && after.refusals == before.refusals + 1
    && FailedApLog(Since(before, after), START_STEPS, |before.procs|)
  }

  lemma CutShortIsStartFailed(before: Machine, after: Machine)
    requires Quiet(before.procs) && CutShort(before, after, READ_STEPS)
    ensures StartFailed(before, after)
    ensures Forward(before, after) && after.notices == before.notices
  {
    assert READ_STEPS <= START_STEPS;
  }

  lemma ReadThenFailed(before: Machine, read: Machine, after: Machine)
    requires Prepared(before, read, READ_STEPS) && Abandoned(read, after, Dnsmasq)
    requires FailedApLog(Since(read, after), AP_STEPS, |read.procs|)
    ensures StartFailed(before, after)
    ensures Forward(before, after) && after.notices == before.notices
  {
    var rest := Since(read, after);
    SinceIsDone(read, after);
    DidMore(before, read, after, READ_STEPS, rest);
    DidIsSince(before, after, READ_STEPS + rest);
    FailedApLogAfter(READ_STEPS, rest, AP_STEPS, |read.procs|);
  }

  /** Slept and found both daemons running, so many times. */
  ghost function ApLooks(count: nat, ms: nat, pids: ApPids): seq<Action> {
    if count == 0 then []
    else ApLooks(count - 1, ms, pids) + [Slept(ms), FoundRunning(pids.hostapd), FoundRunning(pids.dnsmasq)]
  }

  lemma {:induction false} ApLooksAreThree(count: nat, ms: nat, pids: ApPids)
    ensures |ApLooks(count, ms, pids)| == 3 * count
  {
    if count > 0 {
      ApLooksAreThree(count - 1, ms, pids);
    }
  }

  /** Nothing happened but one look that found both daemons running. */
  ghost predicate LookedOnce(before: Machine, after: Machine, ms: nat, pids: ApPids) {
    && after == before.(trace := after.trace, marks := after.marks, slept := before.slept + ms, late := after.late)
    && Did(before, after, [Slept(ms), FoundRunning(pids.hostapd), FoundRunning(pids.dnsmasq)])
    && |before.marks| < |after.marks| && after.marks[|before.marks|].time == before.Clock()
    && before.late <= after.late
  }

  /** Nothing happened but so many of them. The last one began before `deadline`. */
  ghost predicate OnlyLooked(before: Machine, after: Machine, ms: nat, pids: ApPids, looks: nat, deadline: nat) {
    && after == before.(trace := after.trace, marks := after.marks, slept := before.slept + Times(looks, ms),
                        late := after.late)
    && Did(before, after, ApLooks(looks, ms, pids))
    && before.late <= after.late
    && LastBeganBefore(before, after, looks, deadline)
  }

  /** The mark of the sleep that the last of so many looks began with. */
  ghost predicate LastBeganBefore(before: Machine, after: Machine, looks: nat, deadline: nat) {
    looks > 0 ==>
      var last := |before.marks| + 3 * (looks - 1);
      last < |after.marks| && after.marks[last].time < deadline
  }

  lemma OneMoreLook(before: Machine, m: Machine, after: Machine, ms: nat, pids: ApPids, looks: nat, deadline: nat)
    requires OnlyLooked(before, m, ms, pids, looks, deadline) && m.Clock() < deadline
    requires LookedOnce(m, after, ms, pids)
    ensures OnlyLooked(before, after, ms, pids, looks + 1, deadline)
  {
    var look := [Slept(ms), FoundRunning(pids.hostapd), FoundRunning(pids.dnsmasq)];
    DidMore(before, m, after, ApLooks(looks, ms, pids), look);
    ApLooksAreThree(looks, ms, pids);
  }

  predicate AnswerAbout(a: Action, pid: Pid) {
    a == FoundRunning(pid) || a == Collected(pid) || a == WaitFailed(pid)
  }

  /** Both daemons were asked after, hostapd first, and not both were found running. */
  predicate FoundDead(asked: seq<Action>, pids: ApPids) {
    && |asked| == 2
    && AnswerAbout(asked[0], pids.hostapd) && AnswerAbout(asked[1], pids.dnsmasq)
    && asked != [FoundRunning(pids.hostapd), FoundRunning(pids.dnsmasq)]
  }

  /** The look that finds a daemon gone, and what comes of it. */
  ghost predicate DeathLog(log: seq<Action>, ms: nat, pids: ApPids) {
    exists asked, drop ::
      FoundDead(asked, pids) && DropLog(drop, pids.hostapd, pids.dnsmasq) && log == [Slept(ms)] + (asked + drop)
  }

  ghost predicate SawDeath(before: Machine, after: Machine, ms: nat, pids: ApPids) {
    && Forward(before, after)
    && Quiet(after.procs)
    && NotLive(after, pids)
    && DeathLog(Since(before, after), ms, pids)
    && |before.marks| < |after.marks| && after.marks[|before.marks|].time == before.Clock()
    && before.slept + ms <= after.slept <= before.slept + ms + 4 * TERM_GRACE
    && after.refusals <= before.refusals + 1
    && after.notices == before.notices
  }

  lemma HealthyLook(before: Machine, slept: Machine, asked: Machine, after: Machine, ms: nat, pids: ApPids)
    requires |before.trace| == |before.marks| && OnlySlept(before, slept, ms)
    requires BothAsked(slept, asked, after, pids.hostapd, pids.dnsmasq, true)
    ensures LookedOnce(before, after, ms, pids)
  {
  }

  /** Asking only ever moves forward, and leaves no daemon running that was not. */
  lemma AskingIsForward(before: Machine, after: Machine, pid: Pid, answer: WaitAnswer, owned: set<Pid>)
    requires Asked(before, after, pid, answer)
    ensures Forward(before, after)
    ensures after.slept == before.slept && after.refusals == before.refusals && after.notices == before.notices
    ensures OnlyLive(before.procs, owned) ==> OnlyLive(after.procs, owned)
  {
  }

  /** What asking about a child that was running is recorded as. */
  lemma AnswerIsRecorded(before: Machine, after: Machine, pid: Pid, answer: WaitAnswer) returns (a: Action)
    requires Asked(before, after, pid, answer) && before.procs[pid].phase == Live
    ensures AnswerAbout(a, pid) && Did(before, after, [a])
    ensures answer == StillRunning <==> a == FoundRunning(pid)
  {
    a := match answer
         case StillRunning => FoundRunning(pid)
         case Exited => Collected(pid)
         case WaitError => WaitFailed(pid);
  }

  lemma DeathIsRecorded(slept: Machine, asked: Machine, answered: Machine, pids: ApPids, owned: set<Pid>)
    returns (log: seq<Action>)
    requires pids.hostapd < |slept.procs| && pids.dnsmasq < |slept.procs| && pids.hostapd != pids.dnsmasq
    requires slept.procs[pids.hostapd].phase == Live && slept.procs[pids.dnsmasq].phase == Live
    requires BothAsked(slept, asked, answered, pids.hostapd, pids.dnsmasq, false)
    requires OnlyLive(slept.procs, owned)
    ensures OnlyLive(answered.procs, owned)
    ensures FoundDead(log, pids) && Did(slept, answered, log)
    ensures Forward(slept, answered)
    ensures answered.slept == slept.slept && answered.refusals == slept.refusals && answered.notices == slept.notices
  {
    var first, second :| Asked(slept, asked, pids.hostapd, first) && Asked(asked, answered, pids.dnsmasq, second)
                         && !(first == StillRunning && second == StillRunning);
    AskingIsForward(slept, asked, pids.hostapd, first, owned);
    AskingIsForward(asked, answered, pids.dnsmasq, second, owned);
    ForwardTransitive(slept, asked, answered);
    var a := AnswerIsRecorded(slept, asked, pids.hostapd, first);
    var b := AnswerIsRecorded(asked, answered, pids.dnsmasq, second);
    DidMore(slept, asked, answered, [a], [b]);
    log := [a, b];
    assert [a] + [b] == log;
  }

  /** The drop that follows a look that found a daemon gone. */
  lemma DeadLook(before: Machine, slept: Machine, answered: Machine, after: Machine, ms: nat, pids: ApPids,
                 log: seq<Action>)
    requires |before.trace| == |before.marks| && OnlySlept(before, slept, ms)
    requires FoundDead(log, pids) && Did(slept, answered, log) && Forward(slept, answered)
    requires answered.slept == slept.slept && answered.refusals == slept.refusals && answered.notices == slept.notices
    requires Dropped(answered, after, pids.hostapd, pids.dnsmasq) && Quiet(after.procs)
    requires Forward(answered, after)
    ensures SawDeath(before, after, ms, pids)
  {
    ForwardTransitive(before, slept, answered);
    ForwardTransitive(before, answered, after);
    DeathIsLogged(before, slept, answered, after, ms, pids, log);
    assert after.marks[|before.marks|] == slept.marks[|before.marks|];
  }

  lemma DeathIsLogged(before: Machine, slept: Machine, answered: Machine, after: Machine, ms: nat, pids: ApPids,
                      log: seq<Action>)
    requires Did(before, slept, [Slept(ms)]) && FoundDead(log, pids) && Did(slept, answered, log)
    requires Later(answered, after) && DropLog(Since(answered, after), pids.hostapd, pids.dnsmasq)
    ensures DeathLog(Since(before, after), ms, pids)
  {
    var drop := Since(answered, after);
    SinceIsDone(answered, after);
    DidMore(slept, answered, after, log, drop);
    DidMore(before, slept, after, [Slept(ms)], log + drop);
    DidIsSince(before, after, [Slept(ms)] + (log + drop));
  }

  /** The visit once its access point is up: `polls` looks at it, an interval before each, all but the
      last finding both daemons running. It ends at the first look that finds a daemon gone, or else at
      the first one that is not over before the retry time; then client.conf is looked for. */
  ghost predicate Served(up: Machine, after: Machine, t: SuperviseTuning, pids: ApPids,
                         has: Option<ApPids>, event: Event, polls: nat) {
    var ms, retry := t.linkPollSec * 1000, t.apRetrySec * 1000;
    && Forward(up, after)
    && 1 <= polls
    && Times(polls - 1, ms) < retry
    && LastBeganBefore(up, after, polls, up.Clock() + retry)
    && if event == ApDied then
         && has == None
         && (exists last :: DeathLog(last, ms, pids) && Did(up, after, ApLooks(polls - 1, ms, pids) + last))
         && Quiet(after.procs) && NotLive(after, pids)
         && up.slept + Times(polls, ms) <= after.slept <= up.slept + Times(polls, ms) + 4 * TERM_GRACE
         && after.refusals <= up.refusals + 1
         && after.notices == up.notices
       else
         && has == Some(pids)
         && after == up.(trace := after.trace, marks := after.marks, slept := up.slept + Times(polls, ms),
                         late := after.late)
         && Did(up, after, ApLooks(polls, ms, pids) + [LookedForConf(event == ApRetryDue)])
         && retry <= after.Clock() - up.Clock()
         && (after.late == up.late && t.linkPollSec > 0 ==> polls == DivCeil(t.apRetrySec, t.linkPollSec))
  }

  lemma PollsAreCeil(t: SuperviseTuning, polls: nat)
    requires t.Clamped() && 1 <= polls
    requires Times(polls - 1, t.linkPollSec * 1000) < t.apRetrySec * 1000 <= Times(polls, t.linkPollSec * 1000)
    ensures polls == DivCeil(t.apRetrySec, t.linkPollSec)
  {
    var ms := t.linkPollSec * 1000;
    TimesIsProduct(polls - 1, ms);
    TimesIsProduct(polls, ms);
    assert (polls - 1) * ms == ((polls - 1) * t.linkPollSec) * 1000;
    assert polls * ms == (polls * t.linkPollSec) * 1000;
    PeriodsAreCeil(polls, t.linkPollSec, t.apRetrySec);
  }

  /** A visit that only looked, until the retry fell due, is served. */
  lemma VisitIsServed(up: Machine, due: Machine, after: Machine, t: SuperviseTuning, pids: ApPids, polls: nat,
                      present: bool)
    requires t.Clamped() && 1 <= polls
    requires OnlyLooked(up, due, t.linkPollSec * 1000, pids, polls, up.Clock() + t.apRetrySec * 1000)
    requires Times(polls - 1, t.linkPollSec * 1000) < t.apRetrySec * 1000 <= due.Clock() - up.Clock()
    requires after == Record(due, LookedForConf(present))
    ensures Served(up, after, t, pids, Some(pids), if present then ApRetryDue else ApHeld, polls)
  {
    var ms := t.linkPollSec * 1000;
    DidMore(up, due, after, ApLooks(polls, ms, pids), [LookedForConf(present)]);
    if due.late == up.late {
      PollsAreCeil(t, polls);
    }
  }

  lemma DeathIsServed(up: Machine, m: Machine, after: Machine, t: SuperviseTuning, pids: ApPids, looks: nat)
    requires OnlyLooked(up, m, t.linkPollSec * 1000, pids, looks, up.Clock() + t.apRetrySec * 1000)
    requires m.Clock() < up.Clock() + t.apRetrySec * 1000
    requires SawDeath(m, after, t.linkPollSec * 1000, pids)
    ensures Served(up, after, t, pids, None, ApDied, looks + 1)
  {
    var ms, last := t.linkPollSec * 1000, Since(m, after);
    assert Forward(up, m);
    ForwardTransitive(up, m, after);
    SinceIsDone(m, after);
    DidMore(up, m, after, ApLooks(looks, ms, pids), last);
    ApLooksAreThree(looks, ms, pids);
  }
}
