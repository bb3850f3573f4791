/** A child process that ends with its owner, and how it is ended. */
module Daemons {
  import opened Amounts
  import opened World

  const TERM_GRACE := 5000
  const TERM_POLL := 100

  /** An answer that leaves it open whether the child still runs. */
  predicate Vain(a: Action, pid: Pid) {
    a == FoundRunning(pid) || a == WaitFailed(pid)
  }

  /** What an answer that is not an exit is recorded as. */
  function VainAction(answer: WaitAnswer, pid: Pid): Action {
    if answer == StillRunning then FoundRunning(pid) else WaitFailed(pid)
  }

  /** Asked in vain and slept, any number of times. */
  ghost predicate VainPolls(log: seq<Action>, pid: Pid) {
    log == []
    || (|log| >= 2 && Vain(log[|log| - 2], pid) && log[|log| - 1] == Slept(TERM_POLL)
        && VainPolls(log[..|log| - 2], pid))
  }

  lemma OneMoreVainPoll(log: seq<Action>, asked: Action, pid: Pid)
    requires VainPolls(log, pid) && Vain(asked, pid)
    ensures VainPolls(log + [asked, Slept(TERM_POLL)], pid)
  {
    assert (log + [asked, Slept(TERM_POLL)])[..|log|] == log;
  }

  /** How a stop ends: the child has exited, or it is killed and waited for. */
  predicate StopEnd(end: seq<Action>, pid: Pid) {
    || end == [Collected(pid)]
    || end == [Signalled(pid, Kill), Collected(pid)]
    || end == [Signalled(pid, Kill), WaitFailed(pid)]
  }

  /** Everything the stop of a child that was not reaped before does: a child seen to have exited is
      just collected; otherwise it is sent SIGTERM, asked after at every poll until it has exited, and
      killed if it has not. */
  ghost predicate StopLog(log: seq<Action>, pid: Pid) {
    || log == [Collected(pid)]
    || exists first, polls, end ::
         Vain(first, pid) && VainPolls(polls, pid) && StopEnd(end, pid)
         && log == [first, Signalled(pid, Term)] + polls + end
  }

  /** The stop of a child that may have been reaped before, and then does nothing. */
  ghost predicate AnyStopLog(log: seq<Action>, pid: Pid) {
    log == [] || StopLog(log, pid)
  }

  /** Between any SIGTERM and any SIGKILL sent to the child since `before`, so much time passed. */
  ghost predicate KillWaits(before: Machine, after: Machine, pid: Pid, grace: nat) {
    forall i, j :: |before.trace| <= i < j < |after.trace| && j < |after.marks|
                   && after.trace[i] == Signalled(pid, Term) && after.trace[j] == Signalled(pid, Kill) ==>
      after.marks[j].time >= after.marks[i].time + grace
  }

  /** `after` is what stopping the child `pid` may make of `before`. */
  ghost predicate Stopped(before: Machine, after: Machine, pid: Pid) {
    && pid < |before.procs| == |after.procs|
    && after.procs[pid].phase != Live
    && after.procs[pid].kind == before.procs[pid].kind
    && after.procs == before.procs[pid := after.procs[pid]]
    && Later(before, after)
    && (if before.procs[pid].phase == Reaped then after == before else StopLog(Since(before, after), pid))
    && KillWaits(before, after, pid, TERM_GRACE)
    && before.slept <= after.slept <= before.slept + TERM_GRACE
    && before.late <= after.late
    && before.faults <= after.faults
    && (after.faults == before.faults ==> after.procs[pid].phase == Reaped)
    && NothingRan(before, after) && after.refusals == before.refusals
    && after.notices == before.notices
  }

  /** SIGTERM has been sent and nothing has come of it yet. */
  ghost predicate Waiting(before: Machine, m: Machine, pid: Pid, first: Action, polls: seq<Action>, count: nat) {
    && |before.trace| == |before.marks|
    && pid < |before.procs|
    && Vain(first, pid) && VainPolls(polls, pid)
    && m == before.(trace := m.trace, marks := m.marks, slept := m.slept, late := m.late, faults := m.faults)
    && Did(before, m, [first, Signalled(pid, Term)] + polls)
    && m.marks[|before.marks| + 1].time == before.Clock()
    && m.slept == before.slept + Times(count, TERM_POLL) <= before.slept + TERM_GRACE
    && before.late <= m.late
    && before.faults <= m.faults
  }

  /** The grace period is a whole number of polls. */
  lemma PollsFit(count: nat)
    requires Times(count, TERM_POLL) < TERM_GRACE
    ensures Times(count + 1, TERM_POLL) <= TERM_GRACE
  {
    TimesIsProduct(count, TERM_POLL);
  }

  lemma WaitingBegins(before: Machine, asked: Machine, m: Machine, pid: Pid, answer: WaitAnswer)
    requires |before.trace| == |before.marks|
    requires Asked(before, asked, pid, answer) && answer != Exited
    requires m == Send(asked, pid, Term)
    ensures Waiting(before, m, pid, VainAction(answer, pid), [], 0)
  {
    assert m.trace == before.trace + ([VainAction(answer, pid), Signalled(pid, Term)] + []);
  }

  lemma WaitingGoesOn(before: Machine, waiting: Machine, asked: Machine, m: Machine, pid: Pid, first: Action,
                      polls: seq<Action>, count: nat, answer: WaitAnswer)
    requires Waiting(before, waiting, pid, first, polls, count)
    requires waiting.Clock() < before.Clock() + TERM_GRACE
    requires Asked(waiting, asked, pid, answer) && answer != Exited
    requires OnlySlept(asked, m, TERM_POLL)
    ensures Waiting(before, m, pid, first, polls + [VainAction(answer, pid), Slept(TERM_POLL)], count + 1)
  {
    var poll := [VainAction(answer, pid), Slept(TERM_POLL)];
    StillInGrace(before, waiting, pid, first, polls, count);
    PollsFit(count);
    OneMoreVainPoll(polls, VainAction(answer, pid), pid);
    VainPollIsLogged(waiting, asked, m, pid, answer);
    DidMore(before, waiting, m, [first, Signalled(pid, Term)] + polls, poll);
    assert [first, Signalled(pid, Term)] + polls + poll == [first, Signalled(pid, Term)] + (polls + poll);
  }

  lemma VainPollIsLogged(waiting: Machine, asked: Machine, m: Machine, pid: Pid, answer: WaitAnswer)
    requires Asked(waiting, asked, pid, answer) && answer != Exited && OnlySlept(asked, m, TERM_POLL)
    ensures Did(waiting, m, [VainAction(answer, pid), Slept(TERM_POLL)])
    ensures m == waiting.(trace := m.trace, marks := m.marks, slept := waiting.slept + TERM_POLL, late := m.late,
                          faults := m.faults)
    ensures waiting.late <= m.late && waiting.faults <= m.faults
  {
    DidMore(waiting, asked, m, [VainAction(answer, pid)], [Slept(TERM_POLL)]);
  }

  lemma StillInGrace(before: Machine, waiting: Machine, pid: Pid, first: Action, polls: seq<Action>, count: nat)
    requires Waiting(before, waiting, pid, first, polls, count) && waiting.Clock() < before.Clock() + TERM_GRACE
    ensures Times(count, TERM_POLL) < TERM_GRACE
  {
  }

  lemma StoppedAtOnce(before: Machine, after: Machine, pid: Pid)
    requires |before.trace| == |before.marks| && pid < |before.procs|
    requires after == if before.procs[pid].phase == Reaped then before else Collect(before, pid)
    ensures Stopped(before, after, pid)
  {
    if before.procs[pid].phase != Reaped {
      DidIsSince(before, after, [Collected(pid)]);
    }
  }

  /** The only signals of a stop are the second action and the first of its end. */
  lemma StopSignals(log: seq<Action>, pid: Pid, first: Action, polls: seq<Action>, end: seq<Action>)
    requires Vain(first, pid) && VainPolls(polls, pid) && StopEnd(end, pid)
    requires log == [first, Signalled(pid, Term)] + polls + end
    ensures forall k :: 0 <= k < |log| && log[k] == Signalled(pid, Term) ==> k == 1
    ensures forall k :: 0 <= k < |log| && log[k] == Signalled(pid, Kill) ==> k == 2 + |polls|
  {
    VainPollsSendNothing(polls, pid);
    assert forall k :: 2 <= k < 2 + |polls| ==> log[k] == polls[k - 2];
  }

  lemma {:induction false} VainPollsSendNothing(polls: seq<Action>, pid: Pid)
    requires VainPolls(polls, pid)
    ensures forall k :: 0 <= k < |polls| ==> !polls[k].Signalled? && !polls[k].Collected?
  {
    if polls != [] {
      VainPollsSendNothing(polls[..|polls| - 2], pid);
      assert forall k :: 0 <= k < |polls| - 2 ==> polls[k] == polls[..|polls| - 2][k];
    }
  }

  lemma StoppedAfterTerm(before: Machine, waiting: Machine, after: Machine, pid: Pid, first: Action, polls: seq<Action>,
                         count: nat)
    requires Waiting(before, waiting, pid, first, polls, count)
    requires before.procs[pid].phase != Reaped && after == Collect(waiting, pid)
    ensures Stopped(before, after, pid)
  {
    StopIsLogged(before, waiting, after, pid, first, polls, count, [Collected(pid)]);
  }

  lemma StopIsLogged(before: Machine, waiting: Machine, after: Machine, pid: Pid, first: Action, polls: seq<Action>,
                     count: nat, end: seq<Action>)
    requires Waiting(before, waiting, pid, first, polls, count) && StopEnd(end, pid) && Did(waiting, after, end)
    requires end != [Collected(pid)] ==>
               after.marks[|waiting.marks|].time == waiting.Clock() >= before.Clock() + TERM_GRACE
    ensures Later(before, after) && StopLog(Since(before, after), pid)
    ensures KillWaits(before, after, pid, TERM_GRACE)
  {
    var log := [first, Signalled(pid, Term)] + polls + end;
    DidMore(before, waiting, after, [first, Signalled(pid, Term)] + polls, end);
    DidIsSince(before, after, log);
    StopSignals(log, pid, first, polls, end);
    forall i, j | |before.trace| <= i < j < |after.trace| && j < |after.marks|
                  && after.trace[i] == Signalled(pid, Term) && after.trace[j] == Signalled(pid, Kill)
      ensures after.marks[j].time >= after.marks[i].time + TERM_GRACE
    {
      assert log[i - |before.trace|] == Signalled(pid, Term) && log[j - |before.trace|] == Signalled(pid, Kill);
      assert after.marks[i] == waiting.marks[i];
    }
  }

  lemma StoppedAfterKill(before: Machine, waiting: Machine, after: Machine, pid: Pid, first: Action, polls: seq<Action>,
                         count: nat)
    requires Waiting(before, waiting, pid, first, polls, count)
    requires before.procs[pid].phase != Reaped && waiting.Clock() >= before.Clock() + TERM_GRACE
    requires var killed := Send(waiting, pid, Kill); after == Collect(killed, pid) || after == Fail(killed, pid)
    ensures Stopped(before, after, pid)
  {
    var last := if after == Collect(Send(waiting, pid, Kill), pid) then Collected(pid) else WaitFailed(pid);
    assert Did(waiting, after, [Signalled(pid, Kill), last]);
    StopIsLogged(before, waiting, after, pid, first, polls, count, [Signalled(pid, Kill), last]);
  }

  /** A second stop of the same child is silent and free unless the first met an error. */
  lemma SecondStopIsSilent(before: Machine, once: Machine, twice: Machine, pid: Pid)
    requires Stopped(before, once, pid) && Stopped(once, twice, pid)
    requires once.faults == before.faults
    ensures twice == once
  {
  }

  class Daemon {
    const world: World
    const kind: Kind
    const pid: Pid

    ghost predicate Valid()
      reads world
    {
      pid < |world.now.procs| && world.now.procs[pid].kind == kind && kind != StateHook
    }

    constructor (world: World, kind: Kind, pid: Pid)
      ensures this.world == world && this.kind == kind && this.pid == pid
    {
      this.world, this.kind, this.pid := world, kind, pid;
    }

    /** Asks after the daemon; one that has exited is reaped by the question. */
    method IsRunning() returns (running: bool, ghost answer: WaitAnswer)
      requires Valid() && Safe(world.now)
      modifies world
      ensures Valid() && Safe(world.now)
      ensures Asked(old(world.now), world.now, pid, answer)
      ensures running <==> answer == StillRunning
    {
      var answered := world.TryWait(pid);
      answer := answered;
      running := answered == StillRunning;
    }

    /** Asks the daemon to end, and ends it if it has not within the grace. */
    method Stop()
      requires Valid() && Safe(world.now)
      modifies world
      ensures Valid() && Safe(world.now)
      ensures Stopped(old(world.now), world.now, pid)
    {
      ghost var before := world.now;
      var answer := world.TryWait(pid);
      if answer == Exited {
        StoppedAtOnce(before, world.now, pid);
        return;
      }

      ghost var asked := world.now;
      world.SendSignal(pid, Term);

      ghost var first, polls, count: nat := VainAction(answer, pid), [], 0;
      WaitingBegins(before, asked, world.now, pid, answer);
      var deadline := world.now.Clock() + TERM_GRACE;
      while world.now.Clock() < deadline
        invariant Safe(world.now) && Waiting(before, world.now, pid, first, polls, count)
        invariant deadline == before.Clock() + TERM_GRACE
        decreases deadline - world.now.Clock()
      {
        ghost var waiting := world.now;
        answer := world.TryWait(pid);
        if answer == Exited {
          StoppedAfterTerm(before, waiting, world.now, pid, first, polls, count);
          return;
        }
        ghost var polled := world.now;
        world.Sleep(TERM_POLL);
        WaitingGoesOn(before, waiting, polled, world.now, pid, first, polls, count, answer);
        count := count + 1;
        polls := polls + [VainAction(answer, pid), Slept(TERM_POLL)];
      }

      ghost var waiting := world.now;
      world.SendSignal(pid, Kill);
      world.Wait(pid);
      StoppedAfterKill(before, waiting, world.now, pid, first, polls, count);
    }
  }
}
