/** The driver of the state machine: what it owns, and what one visit to each state does. */
module Supervision {
  import opened Wrappers
  import opened StateMachine
  import opened Amounts
  import opened World
  import opened Daemons
  import opened Tuning
  import opened Client
  import Access = Ap
  import opened Ap
  import opened Visits

  /** `StillWatching` is a visit to ClientUp cut short by the observer, not by the driver. */
  datatype StepResult = Raised(event: Event) | StillWatching | Failed

  class Supervisor {
    const world: World
    const tuning: SuperviseTuning
    var client: ClientSession?
    var ap: ApSession?

    ghost function ClientPid(): Option<Pid>
      reads this
    {
      if client == null then None else Some(client.supplicant.pid)
    }

    ghost function ApPair(): Option<ApPids>
      reads this
    {
      if ap == null then None else Some(ApPids(ap.hostapd.pid, ap.dnsmasq.pid))
    }

    /** Every process held by a session. */
    ghost function Owned(): set<Pid>
      reads this
    {
      (if client == null then {} else {client.supplicant.pid})
      + (if ap == null then {} else {ap.hostapd.pid, ap.dnsmasq.pid})
    }

    /** No running daemon is outside the sessions, and there is never more than one session. */
    ghost predicate Valid()
      reads this, world
    {
      && Safe(world.now)
      && tuning.Clamped()
      && (client == null || ap == null)
      && (client != null ==>
            && client.supplicant.world == world && client.supplicant.Valid()
            && client.supplicant.kind == WpaSupplicant)
      && (ap != null ==> ap.world == world && ap.Valid())
      && OnlyLive(world.now.procs, Owned())
    }

    /** No daemon of a session has been seen to exit. */
    ghost predicate SessionsLive()
      requires Valid()
      reads this, world
    {
      && (client != null ==> world.now.procs[client.supplicant.pid].phase == Live)
      && (ap != null ==> && world.now.procs[ap.hostapd.pid].phase == Live
                         && world.now.procs[ap.dnsmasq.pid].phase == Live)
    }

    /** What holds at the start of a visit to `s`. */
    ghost predicate At(s: State)
      reads this, world
    {
      && Valid() && SessionsLive()
      && (s == State.TryClient ==> client == null)
      && (s == ClientUp ==> client != null && ap == null)
      && (s == FallbackAp ==> client == null)
    }

    constructor (world: World, tuning: SuperviseTuning)
      requires Safe(world.now) && Quiet(world.now.procs) && tuning.Clamped()
      ensures this.world == world && this.tuning == tuning && client == null && ap == null
      ensures At(State.TryClient)
    {
      this.world, this.tuning, client, ap := world, tuning, null, null;
    }

    /** Takes the session out, which stops wpa_supplicant, and only then flushes. */
    method StopClient()
      requires Valid()
      modifies this`client, world
      ensures Valid() && client == null
      ensures old(client) == null ==> world.now == old(world.now)
      ensures old(client) != null ==>
                && Quiet(world.now.procs)
                && Forward(old(world.now), world.now)
                && world.now.slept <= old(world.now.slept) + TERM_GRACE
                && |world.now.commands| == |old(world.now.commands)| + 1
                && world.now.leases == old(world.now.leases)
                && world.now.refusals <= old(world.now.refusals) + 1
                && world.now.notices == old(world.now.notices)
                && exists stop :: AnyStopLog(stop, old(client.supplicant.pid))
                     && (old(SessionsLive()) ==> StopLog(stop, old(client.supplicant.pid)))
                     && Did(old(world.now), world.now, stop + [AddressesFlushed])
    {
      if client != null {
        var taken := client.supplicant;
        client := null;
        ghost var before := world.now;
        taken.Stop();
        ghost var stopped := world.now;
        Client.Teardown(world);
        StopRecords(before, stopped, taken.pid);
        DidMore(before, stopped, world.now, Since(before, stopped), [AddressesFlushed]);
      }
    }

    /** Drops the session, if there is one. */
    method StopAp()
      requires Valid()
      modifies this`ap, world
      ensures Valid() && ap == null
      ensures old(ap) == null ==> world.now == old(world.now)
      ensures old(ap) != null ==>
                && Quiet(world.now.procs)
                && Forward(old(world.now), world.now)
                && Dropped(old(world.now), world.now, old(ap.hostapd.pid), old(ap.dnsmasq.pid))
    {
      if ap != null {
        ap.Drop();
        ap := null;
      }
    }

    /** Dropping the supervisor drops its sessions, in the order of its fields. */
    method Drop()
      requires Valid()
      modifies this, world
      ensures Safe(world.now) && Quiet(world.now.procs)
      ensures Forward(old(world.now), world.now)
      ensures world.now.notices == old(world.now.notices)
      ensures old(client) == null && old(ap) == null ==> world.now == old(world.now)
    {
      if client != null {
        client.supplicant.Stop();
        client := null;
      }
      StopAp();
    }

    /** One client cycle, which only starts once the access point is down; `parts` are its failed
        attempts. */
    method TryClient() returns (event: Event, ghost parts: seq<seq<Action>>)
      requires At(State.TryClient)
      modifies this, world
      ensures Valid() && SessionsLive() && ap == null
      ensures Raises(State.TryClient, event)
      ensures event == ClientConnected <==> client != null
      ensures Forward(old(world.now), world.now)
      ensures old(ap) != null ==> NotLive(world.now, old(ApPair()).value)
      ensures world.now.notices == old(world.now.notices)
      ensures Attempted(old(world.now), world.now, tuning, event, parts, old(ApPair()))
    {
      ghost var before := world.now;
      ghost var had := ApPair();
      StopAp();
      ghost var stopped := world.now;
      event, parts := RetryConnect();
      ForwardTransitive(before, stopped, world.now);
      if had.Some? {
        AttemptedAfterStop(before, stopped, world.now, tuning, event, parts, had);
      }
    }

    method RetryConnect() returns (event: Event, ghost parts: seq<seq<Action>>)
      requires Valid() && client == null && ap == null
      modifies this`client, world
      ensures Valid() && SessionsLive()
      ensures Raises(State.TryClient, event)
      ensures event == ClientConnected <==> client != null
      ensures Forward(old(world.now), world.now)
      ensures world.now.notices == old(world.now.notices)
      ensures Attempted(old(world.now), world.now, tuning, event, parts, None)
    {
      ghost var before := world.now;
      parts := [];
      var attempt := 1;
      while attempt <= tuning.clientAttempts
        invariant 1 <= attempt <= tuning.clientAttempts + 1 && |parts| == attempt - 1
        invariant Valid() && client == null
        invariant Tried(before, world.now, tuning, parts, attempt <= tuning.clientAttempts)
      {
        var r;
        r, parts := NextAttempt(attempt, before, parts);
        match r {
          case Connected(_) => return ClientConnected, parts;
          case NoConfig => return ClientConfigMissing, parts;
          case Failed =>
        }
        attempt := attempt + 1;
      }
      TriedAndFailed(before, world.now, tuning, parts);
      return ClientFailed, parts;
    }

    /** The attempt of this number, and what the cycle that began at `before` has come to by it. */
    method NextAttempt(attempt: nat, ghost before: Machine, ghost parts: seq<seq<Action>>)
      returns (r: ConnectResult, ghost parts': seq<seq<Action>>)
      requires Valid() && client == null && ap == null
      requires 1 <= attempt <= tuning.clientAttempts && |parts| == attempt - 1
      requires Tried(before, world.now, tuning, parts, true)
      modifies this`client, world
      ensures Valid() && SessionsLive() && ap == null
      ensures r.Connected? <==> client != null
      ensures Forward(before, world.now) && world.now.notices == before.notices
      ensures match r
              case Connected(_) => Attempted(before, world.now, tuning, ClientConnected, parts', None)
              case NoConfig => Attempted(before, world.now, tuning, ClientConfigMissing, parts', None)
              case Failed =>
                |parts'| == attempt && Tried(before, world.now, tuning, parts', attempt < tuning.clientAttempts)
    {
      ghost var tried := world.now;
      parts' := parts;
      r := AttemptOnce(attempt < tuning.clientAttempts);
      match r {
        case Connected(_) => TriedAndConnected(before, tried, world.now, tuning, parts, r);
        case NoConfig => TriedAndMissing(before, tried, world.now, tuning, parts);
        case Failed =>
          parts' := TriedOnceMore(before, tried, world.now, tuning, parts, attempt < tuning.clientAttempts);
      }
    }

    /** One connection attempt; a half-finished one is dropped before the next can start, and if there
        is to be a next one there is a pause before it. */
    method AttemptOnce(pause: bool) returns (r: ConnectResult)
      requires Valid() && client == null && ap == null
      modifies this`client, world
      ensures Valid() && SessionsLive() && ap == null
      ensures r.Connected? <==> client != null
      ensures AttemptedOnce(old(world.now), world.now, tuning, r, if r.Failed? then pause else false)
    {
      ghost var before := world.now;
      r := TakeClient();
      match r {
        case Connected(_) => ConnectedOnce(before, world.now, tuning, r);
        case NoConfig =>
        case Failed =>
          ghost var failed := world.now;
          StopClient();
          if pause {
            world.Sleep(tuning.retrySec * 1000);
          }
          FailedOnce(before, failed, world.now, tuning, pause);
      }
    }

    /** Holds the connection if the attempt got one. */
    method TakeClient() returns (r: ConnectResult)
      requires Valid() && client == null && ap == null
      modifies this`client, world
      ensures Valid() && SessionsLive() && ap == null
      ensures r.Connected? <==> client != null
      ensures r.NoConfig? ==> world.now == Record(old(world.now), LookedForConf(false))
      ensures r.Connected? ==>
                StationUp(Record(old(world.now), LookedForConf(true)), world.now, DhcpAttempts(tuning), true)
      ensures r.Failed? ==>
                var looked := Record(old(world.now), LookedForConf(true));
                && Quiet(world.now.procs)
                && Abandoned(looked, world.now, WpaSupplicant)
                && FailedStationLog(Since(looked, world.now), |looked.procs|)
                && Errands(looked, world.now, tuning, STATION_COMMANDS, 1)
    {
      ghost var looked := Record(world.now, LookedForConf(true));
      r := Client.Connect(world, tuning);
      if r.Connected? {
        client := r.session;
        StationIsOwned(looked, world.now, DhcpAttempts(tuning));
      }
    }

    /** Looks for the address at every interval. The observer gives up after `polls` looks; the
        `seen` looks before the last found it. */
    method WatchClient(polls: nat) returns (lost: bool, ghost seen: nat)
      requires At(ClientUp)
      modifies this, world
      ensures Valid() && SessionsLive() && ap == null
      ensures Forward(old(world.now), world.now)
      ensures world.now.notices == old(world.now.notices)
      ensures lost ==> client == null && Quiet(world.now.procs) && seen < polls
      ensures lost ==> Watched(old(world.now), world.now, tuning, seen, old(client.supplicant.pid))
      ensures !lost ==> client == old(client) && seen == polls
                        && StillConnected(old(world.now), world.now, tuning, polls)
    {
      seen := 0;
      ghost var before := world.now;
      var left := polls;
      while left > 0
        invariant seen + left == polls
        invariant StillConnected(before, world.now, tuning, seen)
        invariant client == old(client) && ap == null && Valid() && SessionsLive()
      {
        ghost var looked := world.now;
        world.Sleep(tuning.linkPollSec * 1000);
        ghost var slept := world.now;
        var hasAddress := world.HasAddress();
        if !hasAddress {
          ghost var lostIt := world.now;
          StopClient();
          LostIsWatched(before, looked, slept, lostIt, world.now, tuning, seen, old(client.supplicant.pid));
          return true, seen;
        }
        OneMoreAddressLook(before, looked, slept, world.now, tuning, seen);
        seen := seen + 1;
        left := left - 1;
      }
      return false, seen;
    }

    /** Makes sure there is an access point; one that is already up is left alone. */
    method RaiseAp() returns (ok: bool, ghost pids: ApPids)
      requires Valid() && SessionsLive() && client == null
      modifies this`ap, world
      ensures Valid() && SessionsLive() && (ok <==> ap != null)
      ensures Forward(old(world.now), world.now)
      ensures world.now.notices == old(world.now.notices)
      ensures old(ap) != null ==> ok && ap == old(ap) && world.now == old(world.now)
      ensures ok ==> ApPair() == Some(pids) && ApReady(old(world.now), world.now, old(ApPair()), pids)
      ensures !ok ==> StartFailed(old(world.now), world.now)
    {
      pids := ApPids(|world.now.procs| + 1, |world.now.procs|);  // if there is one to start
      if ap != null {
        return true, ApPair().value;
      }
      ok := StartAp();
    }

    /** Reads the settings and starts an access point by them. */
    method StartAp() returns (ok: bool)
      requires Valid() && client == null && ap == null
      modifies this`ap, world
      ensures Valid() && SessionsLive() && (ok <==> ap != null)
      ensures Forward(old(world.now), world.now) && world.now.notices == old(world.now.notices)
      ensures ok ==> ApReady(old(world.now), world.now, None, ApPair().value)
      ensures !ok ==> StartFailed(old(world.now), world.now)
    {
      ghost var before := world.now;
      var read := ReadSettings();
      if !read {
        CutShortIsStartFailed(before, world.now);
        return false;
      }
      ghost var settled := world.now;
      ok := TakeAp();
      if ok {
        ReadThenUp(before, settled, world.now);
      } else {
        ReadThenFailed(before, settled, world.now);
      }
    }

    /** Holds an access point that has just been started. */
    method TakeAp() returns (ok: bool)
      requires Valid() && client == null && ap == null
      modifies this`ap, world
      ensures Valid() && SessionsLive() && (ok <==> ap != null)
      ensures ok ==> ApUp(old(world.now), world.now, AP_STEPS)
                     && ApPair() == Some(ApPids(|old(world.now.procs)| + 1, |old(world.now.procs)|))
      ensures !ok ==> Abandoned(old(world.now), world.now, Dnsmasq)
      ensures !ok ==> FailedApLog(Since(old(world.now), world.now), AP_STEPS, |old(world.now.procs)|)
    {
      ghost var before := world.now;
      ap := Access.Start(world);
      ok := ap != null;
      if ok {
        ApIsOwned(before, world.now);
      }
    }

    /** The identity is read afresh on every start: robot.conf, then fallback-ap.conf. */
    method ReadSettings() returns (ok: bool)
      requires Safe(world.now) && Quiet(world.now.procs)
      modifies world
      ensures Safe(world.now) && Quiet(world.now.procs)
      ensures ok ==> Prepared(old(world.now), world.now, READ_STEPS)
      ensures !ok ==> CutShort(old(world.now), world.now, READ_STEPS)
    {
      ghost var before := world.now;
      NothingIsPrepared(before, READ_STEPS);
      ok := NextStep(world, IdentityRead, before, 0, READ_STEPS);
      if ok {
        ok := NextStep(world, ApConfRead, before, 1, READ_STEPS);
      }
    }

    /** One visit with an access point: at `up` it is up, whether it was before or not. */
    method ServeAp() returns (r: StepResult, ghost up: Machine, ghost pids: ApPids, ghost polls: nat)
      requires At(FallbackAp)
      modifies this, world
      ensures !r.StillWatching?
      ensures Valid() && SessionsLive() && client == null
      ensures Forward(old(world.now), world.now)
      ensures world.now.notices == old(world.now.notices)
      ensures r.Failed? ==> old(ap) == null && ap == null && StartFailed(old(world.now), world.now)
      ensures r.Raised? ==> Raises(FallbackAp, r.event)
      ensures r.Raised? ==> ApReady(old(world.now), up, old(ApPair()), pids)
      ensures r.Raised? ==> Served(up, world.now, tuning, pids, ApPair(), r.event, polls)
    {
      StopClient();

      var raised;
      raised, pids := RaiseAp();
      up, polls := world.now, 0;
      if !raised {
        return StepResult.Failed, up, pids, polls;
      }
      ghost var before := old(world.now);
      var event;
      event, polls := WatchAp();
      ForwardTransitive(before, up, world.now);
      return Raised(event), up, pids, polls;
    }

    /** Looks at a running access point at every interval. */
    method WatchAp() returns (event: Event, ghost polls: nat)
      requires Valid() && SessionsLive() && client == null && ap != null
      modifies this`ap, world
      ensures Valid() && SessionsLive()
      ensures Raises(FallbackAp, event)
      ensures Served(old(world.now), world.now, tuning, old(ApPair()).value, ApPair(), event, polls)
    {
      polls := 0;
      ghost var serving := world.now;
      ghost var session := ap;
      ghost var pids := ApPair().value;
      var started := world.now.Clock();
      var retry := tuning.apRetrySec * 1000;
      while true
        invariant Valid() && SessionsLive() && ap == session
        invariant OnlyLooked(serving, world.now, tuning.linkPollSec * 1000, pids, polls,
                             serving.Clock() + tuning.apRetrySec * 1000)
        invariant started == serving.Clock() && retry == tuning.apRetrySec * 1000
        invariant world.now.Clock() < started + retry
        decreases started + retry - world.now.Clock()
      {
        var healthy := NextLook(serving, pids, polls);
        polls := polls + 1;
        if !healthy {
          return ApDied, polls;
        }

        if world.now.Clock() < started + retry {
          continue;
        }

        event := RetryOrHold(serving, pids, polls);
        return;
      }
    }

    /** The retry is due: it interrupts the access point only if there is something to retry with. */
    method RetryOrHold(ghost serving: Machine, ghost pids: ApPids, ghost polls: nat) returns (event: Event)
      requires Valid() && SessionsLive() && client == null && ap != null && ApPair() == Some(pids)
      requires 1 <= polls && Times(polls - 1, tuning.linkPollSec * 1000) < tuning.apRetrySec * 1000
      requires OnlyLooked(serving, world.now, tuning.linkPollSec * 1000, pids, polls,
                          serving.Clock() + tuning.apRetrySec * 1000)
      requires tuning.apRetrySec * 1000 <= world.now.Clock() - serving.Clock()
      modifies world
      ensures Valid() && SessionsLive()
      ensures event == ApRetryDue || event == ApHeld
      ensures Served(serving, world.now, tuning, pids, ApPair(), event, polls)
    {
      ghost var due := world.now;
      var present := world.ClientConfPresent();
      VisitIsServed(serving, due, world.now, tuning, pids, polls, present);
      event := if present then ApRetryDue else ApHeld;
    }

    /** One more look after so many, and what the visit has come to by it. */
    method NextLook(ghost serving: Machine, ghost pids: ApPids, ghost looks: nat) returns (healthy: bool)
      requires Valid() && SessionsLive() && client == null && ap != null && ApPair() == Some(pids)
      requires OnlyLooked(serving, world.now, tuning.linkPollSec * 1000, pids, looks,
                          serving.Clock() + tuning.apRetrySec * 1000)
      requires world.now.Clock() < serving.Clock() + tuning.apRetrySec * 1000
      modifies this`ap, world
      ensures Valid() && SessionsLive()
      ensures Times(looks, tuning.linkPollSec * 1000) < tuning.apRetrySec * 1000
      ensures healthy ==> world.now.Clock() > old(world.now.Clock())
      ensures healthy ==>
                && ap == old(ap)
                && OnlyLooked(serving, world.now, tuning.linkPollSec * 1000, pids, looks + 1,
                              serving.Clock() + tuning.apRetrySec * 1000)
      ensures !healthy ==> ap == null && Served(serving, world.now, tuning, pids, None, ApDied, looks + 1)
    {
      ghost var looked := world.now;
      healthy := LookAtAp();
      if healthy {
        OneMoreLook(serving, looked, world.now, tuning.linkPollSec * 1000, pids, looks,
                    serving.Clock() + tuning.apRetrySec * 1000);
      } else {
        DeathIsServed(serving, looked, world.now, tuning, pids, looks);
      }
    }

    /** Waits one poll interval and checks both daemons; a session that has died is dropped. */
    method LookAtAp() returns (healthy: bool)
      requires Valid() && SessionsLive() && client == null && ap != null
      modifies this`ap, world
      ensures Valid() && SessionsLive()
      ensures healthy ==>
                && ap == old(ap)
                && LookedOnce(old(world.now), world.now, tuning.linkPollSec * 1000, old(ApPair()).value)
      ensures !healthy ==>
                && ap == null
                && SawDeath(old(world.now), world.now, tuning.linkPollSec * 1000, old(ApPair()).value)
    {
      ghost var before := world.now;
      ghost var pids := ApPair().value;
      world.Sleep(tuning.linkPollSec * 1000);
      ghost var slept := world.now;
      ghost var asked;
      healthy, asked := ap.IsHealthy();
      ghost var answered := world.now;
      if healthy {
        HealthyLook(before, slept, asked, answered, tuning.linkPollSec * 1000, pids);
      } else {
        ghost var log := DeathIsRecorded(slept, asked, answered, pids, Owned());
        StopAp();
        DeadLook(before, slept, answered, world.now, tuning.linkPollSec * 1000, pids, log);
      }
    }
  }
}
