/** The state hook: one child per notification, waited for within bounds. */
module Hook {
  import opened StateMachine
  import opened World
  import opened Daemons

  const RUN_LIMIT := 5000
  const HOOK_GRACE := 2000
  const POLL := 10

  /** Found running and slept, so many times. */
  ghost function Polls(count: nat, pid: Pid): seq<Action> {
    if count == 0 then [] else Polls(count - 1, pid) + [FoundRunning(pid), Slept(POLL)]
  }

  lemma {:induction false} PollsSendNothing(count: nat, pid: Pid)
    ensures forall a :: a in Polls(count, pid) ==> !a.Signalled?
  {
    if count > 0 {
      PollsSendNothing(count - 1, pid);
    }
  }

  /** How the escalation ends once the grace period is being waited out. A failed wait is the end of
      it: nothing is sent to a child that cannot be waited for. */
  predicate GraceEnd(end: seq<Action>, h: Pid) {
    || end == [Collected(h)]
    || end == [WaitFailed(h)]
    || end == [FoundRunning(h), Signalled(h, Kill), Collected(h)]
    || end == [FoundRunning(h), Signalled(h, Kill), WaitFailed(h)]
  }

  /** How a hook's child that was found running at its limit is made to end. */
  ghost predicate EscalationLog(log: seq<Action>, h: Pid) {
    exists count: nat, end :: GraceEnd(end, h) && log == [Signalled(h, Term)] + Polls(count, h) + end
  }

  /** How the first wait for a hook's child ends. */
  ghost predicate RunEnd(end: seq<Action>, h: Pid) {
    || end == [Collected(h)]
    || end == [WaitFailed(h)]
    || exists rest :: EscalationLog(rest, h) && end == [FoundRunning(h)] + rest
  }

  /** Everything one notification does. */
  ghost predicate NotifyLog(log: seq<Action>, h: Pid) {
    || log == []
    || log == [Refused(StateHook)]
    || exists count: nat, end :: RunEnd(end, h) && log == [Spawned(h)] + Polls(count, h) + end
  }

  /** SIGTERM is only sent so long after `before`. */
  ghost predicate TermWaits(before: Machine, after: Machine, h: Pid, runLimit: nat) {
    forall i :: |before.trace| <= i < |after.trace| && i < |after.marks| && after.trace[i] == Signalled(h, Term) ==>
      after.marks[i].time >= before.Clock() + runLimit
  }

  /** `after` is what one notification of `state` may make of `before`. */
  ghost predicate Notified(before: Machine, after: Machine, state: State, runLimit: nat, grace: nat) {
    var h := |before.procs|;
    && Later(before, after)
    && NotifyLog(Since(before, after), h)
    && TermWaits(before, after, h, runLimit) && KillWaits(before, after, h, grace)
    && after.notices == before.notices + [Hooked(state)]
    && before.procs <= after.procs
    && |after.procs| <= h + 1
    && (h < |after.procs| ==> after.procs[h].kind == StateHook)
    && before.slept <= after.slept < before.slept + runLimit + grace + 2 * POLL
    && before.late <= after.late
    && NothingRan(before, after)
    && before.refusals <= after.refusals <= before.refusals + 1
    && before.faults <= after.faults
    && (after.faults == before.faults && h < |after.procs| ==> after.procs[h].phase == Reaped)
  }

  /** Without a hook nothing is run; with one, its child is started, or the machine refuses. */
  ghost predicate Called(before: Machine, after: Machine, hook: string) {
    if hook == "" then after.trace == before.trace && after.refusals == before.refusals
    else |after.procs| + after.refusals == |before.procs| + before.refusals + 1
  }

  /** Nothing happened but so many polls that found the child running, the last of them begun before
      the deadline. */
  ghost predicate Polled(before: Machine, after: Machine, child: Pid, deadline: nat, count: nat) {
    && after == before.(trace := after.trace, marks := after.marks, slept := after.slept, late := after.late)
    && Did(before, after, Polls(count, child))
    && before.slept <= after.slept && before.late <= after.late
    && after.slept < POLL + if deadline <= before.Clock() then before.slept
                            else before.slept + deadline - before.Clock()
  }

  lemma OneMorePoll(before: Machine, polled: Machine, after: Machine, child: Pid, deadline: nat, count: nat)
    requires Polled(before, polled, child, deadline, count) && polled.Clock() < deadline
    requires OnlySlept(Record(polled, FoundRunning(child)), after, POLL)
    ensures Polled(before, after, child, deadline, count + 1)
  {
    assert after.trace == before.trace + (Polls(count, child) + [FoundRunning(child), Slept(POLL)]);
  }

  /** Waits for `child` until it exits, cannot be waited for, or the deadline passes. `polled` is the
      machine right before the last question. */
  method WaitUntil(world: World, child: Pid, deadline: nat)
    returns (answer: WaitAnswer, ghost polled: Machine, ghost count: nat)
    requires Safe(world.now)
    requires child < |world.now.procs| && world.now.procs[child].phase != Reaped
    modifies world
    ensures Safe(world.now)
    ensures Polled(old(world.now), polled, child, deadline, count)
    ensures Asked(polled, world.now, child, answer)
    ensures answer == StillRunning ==> world.now.Clock() >= deadline
  {
    ghost var before := world.now;
    count := 0;
    while true
      invariant Safe(world.now) && Polled(before, world.now, child, deadline, count)
      decreases deadline - world.now.Clock()
    {
      polled := world.now;
      answer := world.TryWait(child);
      if answer != StillRunning {
        return;
      }
      if world.now.Clock() >= deadline {
        return;
      }
      world.Sleep(POLL);
      OneMorePoll(before, polled, world.now, child, deadline, count);
      count := count + 1;
    }
  }

  /** `polled` is the machine when the wait that follows SIGTERM asked for the last time; `after` is how
      the escalation ended. */
  ghost predicate Terminated(before: Machine, polled: Machine, count: nat, after: Machine, child: Pid, grace: nat) {
    && child < |before.procs| && before.procs[child].phase != Reaped
    && var sent := Send(before, child, Term);
    && Polled(sent, polled, child, before.Clock() + grace, count)
    && var killed := Send(Record(polled, FoundRunning(child)), child, Kill);
    || after == Collect(polled, child)
    || after == Fail(polled, child)
    || (polled.Clock() >= before.Clock() + grace && (after == Collect(killed, child) || after == Fail(killed, child)))
  }

  /** Asks the child to end, and ends it if it has not within the grace. */
  method Terminate(world: World, child: Pid, grace: nat) returns (ghost polled: Machine, ghost count: nat)
    requires Safe(world.now)
    requires child < |world.now.procs| && world.now.procs[child].phase != Reaped
    modifies world
    ensures Safe(world.now)
    ensures Terminated(old(world.now), polled, count, world.now, child, grace)
  {
    world.SendSignal(child, Term);
    var answer;
    answer, polled, count := WaitUntil(world, child, world.now.Clock() + grace);
    if answer == StillRunning {
      world.SendSignal(child, Kill);
      world.Wait(child);
    }
  }

  /** SIGKILL is only sent at `time` or later, and SIGTERM not at all. */
  ghost predicate OnlyLateKills(before: Machine, after: Machine, h: Pid, time: nat) {
    forall i :: |before.trace| <= i < |after.trace| && i < |after.marks| ==>
      && (after.trace[i] == Signalled(h, Kill) ==> after.marks[i].time >= time)
      && after.trace[i] != Signalled(h, Term)
  }

  /** The last actions of the escalation, after its polls. */
  lemma GraceEnds(before: Machine, polled: Machine, count: nat, after: Machine, child: Pid, grace: nat)
    returns (end: seq<Action>)
    requires |before.trace| == |before.marks|
    requires Terminated(before, polled, count, after, child, grace)
    ensures GraceEnd(end, child) && Did(polled, after, end)
    ensures OnlyLateKills(polled, after, child, before.Clock() + grace)
  {
    if after == Collect(polled, child) {
      end := [Collected(child)];
    } else if after == Fail(polled, child) {
      end := [WaitFailed(child)];
    } else {
      end := KilledAtLast(polled, after, child, before.Clock() + grace);
    }
  }

  lemma KilledAtLast(polled: Machine, after: Machine, child: Pid, time: nat) returns (end: seq<Action>)
    requires |polled.trace| == |polled.marks| && child < |polled.procs| && polled.Clock() >= time
    requires var killed := Send(Record(polled, FoundRunning(child)), child, Kill);
             after == Collect(killed, child) || after == Fail(killed, child)
    ensures GraceEnd(end, child) && Did(polled, after, end)
    ensures OnlyLateKills(polled, after, child, time)
  {
    var killed := Send(Record(polled, FoundRunning(child)), child, Kill);
    end := [FoundRunning(child), Signalled(child, Kill),
            if after == Collect(killed, child) then Collected(child) else WaitFailed(child)];
  }

  /** The polls send nothing, so what is sent after them is all that is sent. */
  lemma PollsKeepLate(before: Machine, polled: Machine, after: Machine, child: Pid, count: nat, time: nat)
    requires Did(before, polled, Polls(count, child)) && Later(polled, after)
    requires OnlyLateKills(polled, after, child, time)
    ensures OnlyLateKills(before, after, child, time)
  {
    PollsSendNothing(count, child);
    assert forall i :: |before.trace| <= i < |polled.trace| ==>
                         after.trace[i] == polled.trace[i] == Polls(count, child)[i - |before.trace|];
  }

  /** The steps after the limit, in order, and when the signals among them were sent. */
  lemma TerminatedActions(before: Machine, polled: Machine, count: nat, after: Machine, child: Pid, grace: nat)
    requires |before.trace| == |before.marks|
    requires Terminated(before, polled, count, after, child, grace)
    ensures Later(before, after) && EscalationLog(Since(before, after), child)
    ensures TermWaits(before, after, child, 0) && KillWaits(before, after, child, grace)
  {
    var end := GraceEnds(before, polled, count, after, child, grace);
    var sent := Send(before, child, Term);
    DidMore(before, sent, polled, [Signalled(child, Term)], Polls(count, child));
    DidMore(before, polled, after, [Signalled(child, Term)] + Polls(count, child), end);
    DidIsSince(before, after, [Signalled(child, Term)] + Polls(count, child) + end);
    PollsKeepLate(sent, polled, after, child, count, before.Clock() + grace);
    FirstTermThenKill(before, sent, after, child, grace);
  }

  lemma FirstTermThenKill(before: Machine, sent: Machine, after: Machine, child: Pid, grace: nat)
    requires |before.trace| == |before.marks| && child < |before.procs|
    requires sent == Send(before, child, Term) && Later(sent, after)
    requires OnlyLateKills(sent, after, child, before.Clock() + grace)
    ensures TermWaits(before, after, child, 0) && KillWaits(before, after, child, grace)
  {
    var first := |before.trace|;
    assert after.trace[first] == sent.trace[first] == Signalled(child, Term);
    assert after.marks[first] == sent.marks[first] && sent.marks[first].time == before.Clock();
  }

  /** `notify`: best-effort, so every way it can go wrong ends here. */
  method Notify(world: World, hook: string, state: State)
    requires Safe(world.now)
    modifies world
    ensures Safe(world.now)
    ensures Notified(old(world.now), world.now, state, RUN_LIMIT, HOOK_GRACE)
    ensures Called(old(world.now), world.now, hook)
  {
    NotifyWithin(world, hook, state, RUN_LIMIT, HOOK_GRACE);
  }

  /** The hook's child has been started. */
  function WithHook(before: Machine, state: State): Machine {
    Launch(before.(notices := before.notices + [Hooked(state)]), StateHook)
  }

  /** A hook child disturbs no daemon. */
  lemma HookChildIsSafe(m: Machine)
    requires Safe(m)
    ensures Safe(Launch(m, StateHook))
  {
    assert Exclusive(Launch(m, StateHook).procs);
  }

  method NotifyWithin(world: World, hook: string, state: State, runLimit: nat, grace: nat)
    requires Safe(world.now)
    modifies world
    ensures Safe(world.now)
    ensures Notified(old(world.now), world.now, state, runLimit, grace)
    ensures Called(old(world.now), world.now, hook)
  {
    ghost var before := world.now;
    world.Announce(Hooked(state));
    if hook == "" {
      return;
    }

    var child := |world.now.procs|;
    HookChildIsSafe(world.now);
    var spawned := world.Spawn(StateHook);
    if !spawned {
      HookRefused(before, world.now, state, runLimit, grace);
      return;
    }

    ghost var polled, count, ended, more;
    var answer;
    answer, polled, count := WaitUntil(world, child, world.now.Clock() + runLimit);
    if answer == StillRunning {
      ghost var limit := world.now;
      ended, more := Terminate(world, child, grace);
      HookTerminated(before, polled, count, limit, ended, more, world.now, state, runLimit, grace);
    } else {
      HookFinished(before, polled, count, world.now, answer, state, runLimit, grace);
    }
  }

  /** The hook's child could not be started. */
  lemma HookRefused(before: Machine, after: Machine, state: State, runLimit: nat, grace: nat)
    requires |before.trace| == |before.marks|
    requires var told := before.(notices := before.notices + [Hooked(state)]);
             after == Record(told, Refused(StateHook)).(refusals := before.refusals + 1)
    ensures Notified(before, after, state, runLimit, grace)
  {
    DidIsSince(before, after, [Refused(StateHook)]);
  }

  /** The hook's child exited within its limit, or could not be waited for. */
  lemma HookFinished(before: Machine, polled: Machine, count: nat, after: Machine, answer: WaitAnswer, state: State,
                     runLimit: nat, grace: nat)
    requires |before.trace| == |before.marks|
    requires Polled(WithHook(before, state), polled, |before.procs|, before.Clock() + runLimit, count)
    requires Asked(polled, after, |before.procs|, answer) && answer != StillRunning
    ensures Notified(before, after, state, runLimit, grace)
    ensures |after.procs| == |before.procs| + 1 && after.refusals == before.refusals
  {
    var h := |before.procs|;
    var end := if answer == Exited then [Collected(h)] else [WaitFailed(h)];
    WaitedIsLogged(before, polled, count, after, end, state, runLimit);
    assert RunEnd(end, h);
    PollsSendNothing(count, h);
    assert forall a :: a in [Spawned(h)] + Polls(count, h) + end ==> !a.Signalled?;
    SendingNothingIsTimely(before, after, h, runLimit, grace);
  }

  lemma WaitedIsLogged(before: Machine, polled: Machine, count: nat, after: Machine, end: seq<Action>, state: State,
                       runLimit: nat)
    requires Polled(WithHook(before, state), polled, |before.procs|, before.Clock() + runLimit, count)
    requires Did(polled, after, end)
    ensures Did(before, after, [Spawned(|before.procs|)] + Polls(count, |before.procs|) + end)
    ensures Since(before, after) == [Spawned(|before.procs|)] + Polls(count, |before.procs|) + end
  {
    var h := |before.procs|;
    DidMore(before, WithHook(before, state), polled, [Spawned(h)], Polls(count, h));
    DidMore(before, polled, after, [Spawned(h)] + Polls(count, h), end);
    DidIsSince(before, after, [Spawned(h)] + Polls(count, h) + end);
  }

  lemma SendingNothingIsTimely(before: Machine, after: Machine, h: Pid, runLimit: nat, grace: nat)
    requires Later(before, after)
    requires forall a :: a in Since(before, after) ==> !a.Signalled?
    ensures TermWaits(before, after, h, runLimit) && KillWaits(before, after, h, grace)
  {
    assert forall i :: |before.trace| <= i < |after.trace| ==>
                         after.trace[i] == Since(before, after)[i - |before.trace|];
  }

  /** What is left of the child after the escalation. */
  lemma TerminatedLeaves(before: Machine, polled: Machine, count: nat, after: Machine, child: Pid, grace: nat)
    requires Terminated(before, polled, count, after, child, grace)
    ensures |after.procs| == |before.procs| && after.procs == before.procs[child := after.procs[child]]
    ensures after.procs[child].kind == before.procs[child].kind
    ensures before.faults <= after.faults
    ensures after.faults == before.faults ==> after.procs[child].phase == Reaped
    ensures after == before.(procs := after.procs, trace := after.trace, marks := after.marks,
                             slept := polled.slept, late := polled.late, faults := after.faults)
  {
  }

  /** The hook's child, still running at its limit, was terminated. */
  lemma HookTerminated(before: Machine, polled: Machine, count: nat, limit: Machine, ended: Machine, more: nat,
                       after: Machine, state: State, runLimit: nat, grace: nat)
    requires |before.trace| == |before.marks|
    requires Polled(WithHook(before, state), polled, |before.procs|, before.Clock() + runLimit, count)
    requires limit == Record(polled, FoundRunning(|before.procs|)) && limit.Clock() >= before.Clock() + runLimit
    requires Terminated(limit, ended, more, after, |before.procs|, grace)
    ensures Notified(before, after, state, runLimit, grace)
    ensures |after.procs| == |before.procs| + 1 && after.refusals == before.refusals
  {
    TerminatedLeaves(limit, ended, more, after, |before.procs|, grace);
    HookTerminatedActions(before, polled, count, limit, ended, more, after, state, runLimit, grace);
  }

  lemma HookTerminatedActions(before: Machine, polled: Machine, count: nat, limit: Machine, ended: Machine, more: nat,
                              after: Machine, state: State, runLimit: nat, grace: nat)
    requires |before.trace| == |before.marks|
    requires Polled(WithHook(before, state), polled, |before.procs|, before.Clock() + runLimit, count)
    requires limit == Record(polled, FoundRunning(|before.procs|)) && limit.Clock() >= before.Clock() + runLimit
    requires Terminated(limit, ended, more, after, |before.procs|, grace)
    ensures Later(before, after) && NotifyLog(Since(before, after), |before.procs|)
    ensures TermWaits(before, after, |before.procs|, runLimit) && KillWaits(before, after, |before.procs|, grace)
  {
    var h := |before.procs|;
    TerminatedActions(limit, ended, more, after, h, grace);
    var rest := Since(limit, after);
    SinceIsDone(limit, after);
    DidMore(polled, limit, after, [FoundRunning(h)], rest);
    assert RunEnd([FoundRunning(h)] + rest, h);
    WaitedIsLogged(before, polled, count, after, [FoundRunning(h)] + rest, state, runLimit);
    WaitedIsLogged(before, polled, count, limit, [FoundRunning(h)], state, runLimit);
    PollsSendNothing(count, h);
    SignalsAfter(before, limit, after, h, runLimit, grace);
  }

  /** If nothing was sent up to `limit`, and that was late enough, signals may follow. */
  lemma SignalsAfter(before: Machine, limit: Machine, after: Machine, h: Pid, runLimit: nat, grace: nat)
    requires Later(before, limit) && Later(limit, after)
    requires forall a :: a in Since(before, limit) ==> !a.Signalled?
    requires limit.Clock() >= before.Clock() + runLimit
    requires TermWaits(limit, after, h, 0) && KillWaits(limit, after, h, grace)
    ensures TermWaits(before, after, h, runLimit) && KillWaits(before, after, h, grace)
  {
    assert forall i :: |before.trace| <= i < |limit.trace| ==>
                         after.trace[i] == limit.trace[i] == Since(before, limit)[i - |before.trace|];
  }
}
