/**
 The machine the supervisor drives: its process table, its clock, the WiFi interface, and the
 notices sent out of the process. Whatever the real machine would answer -- whether a child has
 exited, whether a command worked, whether a file is there -- is chosen arbitrarily, so a contract
 proved here holds for every sequence of answers.
 */
module World {
  import opened StateMachine

  type Pid = nat

  datatype Kind = WpaSupplicant | Hostapd | Dnsmasq | StateHook

  /** `Live` means "may still be running": a child that exited unobserved stays `Live`.
      `Killed` has been sent SIGKILL but not waited for. `Reaped` has been waited for, which is also
      what a child handle remembers: asking a reaped child again answers from memory. */
  datatype Phase = Live | Killed | Reaped

  datatype Process = Process(kind: Kind, phase: Phase)

  datatype Signal = Term | Kill

  /** Everything that is done to the machine or asked of it, except for notices. */
  datatype Action =
    | Spawned(pid: Pid)
    | Refused(kind: Kind)  // a process that could not be started
    | Signalled(pid: Pid, signal: Signal)
    | FoundRunning(pid: Pid)  // the three answers to "has this child exited?"
    | Collected(pid: Pid)
    | WaitFailed(pid: Pid)
    | IdentityRead
    | ApConfRead
    | InterfaceChecked
    | ConfWritten(kind: Kind)
    | AddressesFlushed
    | AddressAdded
    | LinkRaised
    | LeaseRequested
    | LookedForConf(present: bool)
    | LookedForAddress(has: bool)
    | Slept(ms: nat)

  /** What goes with an action: the process table right after it, and the clock right before it. */
  datatype Mark = Mark(table: seq<Process>, time: nat)

  /** What leaves the process: a state hook call, or the readiness notice to systemd. */
  datatype Notice = Hooked(state: State) | Ready(state: State)

  /** A lease request: how many times it was told to ask, and how long it took. */
  datatype Lease = Lease(attempts: nat, cost: nat)

  datatype WaitAnswer = StillRunning | Exited | WaitError

  /** `trace[i]` is the i-th action and `marks[i]` what goes with it. `slept` is the milliseconds asked
      of `sleep` and `late` those by which sleeps overran; `leases` are the lease requests and
      `commands` the costs of all other commands, in order. `faults` counts waits that returned an
      error, and `refusals` the commands that failed, the processes that could not be started and the
      looks for an address that found none. */
  datatype Machine = Machine(
    procs: seq<Process>,
    trace: seq<Action>,
    marks: seq<Mark>,
    slept: nat,
    late: nat,
    commands: seq<nat>,
    leases: seq<Lease>,
    faults: nat,
    refusals: nat,
    notices: seq<Notice>)
  {
    function Clock(): nat { slept + late + Total(commands) + LeaseTime(leases) }
  }

  const NEW_MACHINE := Machine([], [], [], 0, 0, [], [], 0, 0, [])

  function Total(costs: seq<nat>): nat {
    if costs == [] then 0 else Total(costs[..|costs| - 1]) + costs[|costs| - 1]
  }

  function LeaseTime(leases: seq<Lease>): nat {
    if leases == [] then 0 else LeaseTime(leases[..|leases| - 1]) + leases[|leases| - 1].cost
  }

  predicate LiveDaemon(p: Process) {
    p.phase == Live && p.kind != StateHook
  }

  ghost predicate Quiet(table: seq<Process>) {
    forall i :: 0 <= i < |table| ==> !LiveDaemon(table[i])
  }

  /** At most one process of each daemon kind may be running, and wpa_supplicant only alone. */
  ghost predicate Exclusive(table: seq<Process>) {
    forall i, j :: 0 <= i < j < |table| && LiveDaemon(table[i]) && LiveDaemon(table[j]) ==>
      && table[i].kind != table[j].kind
      && table[i].kind != WpaSupplicant
      && table[j].kind != WpaSupplicant
  }

  /** No action may happen at the wrong moment: a reaped child is never signalled, the interface is
      only reconfigured while no daemon is running, and a lease is only asked for as a station. */
  ghost predicate Timely(a: Action, table: seq<Process>) {
    match a
    case Spawned(pid) => pid + 1 == |table| && table[pid].phase == Live
    case Signalled(pid, _) => pid < |table| && table[pid].phase != Reaped
    case FoundRunning(pid) => pid < |table| && table[pid].phase != Reaped
    case WaitFailed(pid) => pid < |table| && table[pid].phase != Reaped
    case Collected(pid) => pid < |table| && table[pid].phase == Reaped
    case AddressesFlushed | AddressAdded | LinkRaised => Quiet(table)
    case LeaseRequested =>
      forall i :: 0 <= i < |table| && LiveDaemon(table[i]) ==> table[i].kind == WpaSupplicant
    case _ => true
  }

  predicate IsReaped(table: seq<Process>, pid: Pid) {
    pid < |table| && table[pid].phase == Reaped
  }

  /** Every action so far came at its moment, every process table so far was exclusive, and once a
      child was collected it stays so and is never signalled again. */
  ghost predicate Safe(m: Machine) {
    && |m.trace| == |m.marks|
    && (forall i :: 0 <= i < |m.trace| ==> Timely(m.trace[i], m.marks[i].table))
    && (forall i :: 0 <= i < |m.marks| ==> Exclusive(m.marks[i].table))
    && Exclusive(m.procs)
    && (forall i :: 0 <= i < |m.trace| && m.trace[i].Collected? ==> IsReaped(m.procs, m.trace[i].pid))
    && (forall i, j :: 0 <= i < j < |m.trace| && m.trace[i].Collected? && m.trace[j].Signalled? ==>
                         m.trace[i].pid != m.trace[j].pid)
  }

  lemma NewMachineIsSafe()
    ensures Safe(NEW_MACHINE)
  {
  }

  function Record(m: Machine, a: Action): Machine {
    m.(trace := m.trace + [a], marks := m.marks + [Mark(m.procs, m.Clock())])
  }

  function SetPhase(m: Machine, pid: Pid, phase: Phase): Machine
    requires pid < |m.procs|
  {
    m.(procs := m.procs[pid := m.procs[pid].(phase := phase)])
  }

  function Launch(m: Machine, kind: Kind): Machine {
    Record(m.(procs := m.procs + [Process(kind, Live)]), Spawned(|m.procs|))
  }

  function Collect(m: Machine, pid: Pid): Machine
    requires pid < |m.procs|
  {
    Record(SetPhase(m, pid, Reaped), Collected(pid))
  }

  function Send(m: Machine, pid: Pid, signal: Signal): Machine
    requires pid < |m.procs|
  {
    Record(if signal == Kill then SetPhase(m, pid, Killed) else m, Signalled(pid, signal))
  }

  /** A wait that failed. */
  function Fail(m: Machine, pid: Pid): Machine {
    Record(m, WaitFailed(pid)).(faults := m.faults + 1)
  }

  /** What was done between two machine states, oldest first. */
  ghost function Since(before: Machine, after: Machine): seq<Action> {
    if |before.trace| <= |after.trace| then after.trace[|before.trace|..] else []
  }

  /** Nothing recorded before is lost. */
  ghost predicate Later(before: Machine, after: Machine) {
    && before.trace <= after.trace && before.marks <= after.marks
    && |after.trace| - |before.trace| == |after.marks| - |before.marks|
  }

  /** Exactly these actions were recorded in between. */
  ghost predicate Did(before: Machine, after: Machine, actions: seq<Action>) {
    Later(before, after) && after.trace == before.trace + actions
  }

  lemma DidIsSince(before: Machine, after: Machine, actions: seq<Action>)
    requires Did(before, after, actions)
    ensures Since(before, after) == actions
  {
  }

  lemma SinceIsDone(before: Machine, after: Machine)
    requires Later(before, after)
    ensures Did(before, after, Since(before, after))
  {
  }

  lemma DidMore(a: Machine, b: Machine, c: Machine, actions: seq<Action>, more: seq<Action>)
    requires Did(a, b, actions) && Did(b, c, more)
    ensures Did(a, c, actions + more)
  {
  }

  /** When something was first done, counted from the start of the log; its length if it was not. */
  ghost function First(log: seq<Action>, a: Action): nat {
    if log == [] || log[0] == a then 0 else 1 + First(log[1..], a)
  }

  lemma {:induction false} FirstIs(log: seq<Action>, a: Action, i: nat)
    requires i < |log| && log[i] == a && forall j :: 0 <= j < i ==> log[j] != a
    ensures First(log, a) == i
  {
    if i > 0 {
      FirstIs(log[1..], a, i - 1);
    }
  }

  lemma {:induction false} FirstLater(before: seq<Action>, log: seq<Action>, a: Action)
    requires a !in before
    ensures First(before + log, a) == |before| + First(log, a)
  {
    if before == [] {
      assert before + log == log;
    } else {
      assert (before + log)[1..] == before[1..] + log;
      FirstLater(before[1..], log, a);
    }
  }

  function NoCount(answer: bool): nat {
    if answer then 0 else 1
  }

  /** Nothing happened but one sleep. */
  ghost predicate OnlySlept(before: Machine, after: Machine, ms: nat) {
    && after == Record(before, Slept(ms)).(slept := before.slept + ms, late := after.late)
    && before.late <= after.late
  }

  /** Nothing happened but one command. */
  ghost predicate OnlyRan(before: Machine, after: Machine, a: Action, ok: bool) {
    && after == Record(before, a).(commands := after.commands, refusals := before.refusals + NoCount(ok))
    && before.commands <= after.commands && |after.commands| == |before.commands| + 1
  }

  /** Signalling a child that is not yet reaped keeps a machine safe. */
  lemma SendingIsSafe(m: Machine, pid: Pid, signal: Signal)
    requires pid < |m.procs| && m.procs[pid].phase != Reaped
    ensures Safe(m) ==> Safe(Send(m, pid, signal))
  {
    if Safe(m) {
      assert Exclusive(Send(m, pid, signal).procs);
      assert Timely(Signalled(pid, signal), Send(m, pid, signal).procs);
    }
  }

  /** So does recording anything else that is timely. */
  lemma RecordingIsSafe(m: Machine, a: Action)
    requires Safe(m) && Timely(a, m.procs) && !a.Signalled? && !a.Collected?
    ensures Safe(Record(m, a))
  {
  }

  /** So does asking after one, whatever the answer. */
  lemma AskingIsSafe(m: Machine, pid: Pid)
    requires pid < |m.procs| && m.procs[pid].phase != Reaped
    ensures Safe(m) ==> Safe(Record(m, FoundRunning(pid))) && Safe(Collect(m, pid)) && Safe(Fail(m, pid))
  {
    if Safe(m) {
      RecordingIsSafe(m, FoundRunning(pid));
      RecordingIsSafe(m, WaitFailed(pid));
      assert Exclusive(Collect(m, pid).procs);
    }
  }

  /** Two daemons that run together are the two of an access point. */
  ghost predicate OnlyApTogether(table: seq<Process>) {
    forall a, b :: 0 <= a < |table| && 0 <= b < |table| && a != b && LiveDaemon(table[a]) && LiveDaemon(table[b]) ==>
      {table[a].kind, table[b].kind} == {Hostapd, Dnsmasq}
  }

  /** A collected child is left alone from then on. */
  ghost predicate CollectedLeftAlone(trace: seq<Action>) {
    forall i, j, pid, signal :: 0 <= i < j < |trace| && trace[i] == Collected(pid) ==>
      trace[j] != Signalled(pid, signal)
  }

  predicate OnInterface(a: Action) {
    a.AddressesFlushed? || a.AddressAdded? || a.LinkRaised?
  }

  lemma ExclusiveIsOnlyAp(table: seq<Process>)
    requires Exclusive(table)
    ensures OnlyApTogether(table)
  {
    forall a, b | 0 <= a < |table| && 0 <= b < |table| && a != b && LiveDaemon(table[a]) && LiveDaemon(table[b])
      ensures {table[a].kind, table[b].kind} == {Hostapd, Dnsmasq}
    {
      if a < b {
        assert table[a].kind != table[b].kind;
      } else {
        assert table[b].kind != table[a].kind;
      }
    }
  }

  /** What a safe machine's history shows: at no instant a station beside an access point, nor two
      daemons of a kind; the interface only acted on while no daemon ran; no signal to a collected
      child. */
  lemma SafeHistory(m: Machine)
    requires Safe(m)
    ensures forall instant :: 0 <= instant < |m.marks| ==> OnlyApTogether(m.marks[instant].table)
    ensures forall instant :: 0 <= instant < |m.trace| && OnInterface(m.trace[instant]) ==>
                                Quiet(m.marks[instant].table)
    ensures OnlyApTogether(m.procs)
    ensures CollectedLeftAlone(m.trace)
  {
    ExclusiveIsOnlyAp(m.procs);
    forall instant | 0 <= instant < |m.marks|
      ensures OnlyApTogether(m.marks[instant].table)
    {
      ExclusiveIsOnlyAp(m.marks[instant].table);
    }
    forall instant | 0 <= instant < |m.trace| && OnInterface(m.trace[instant])
      ensures Quiet(m.marks[instant].table)
    {
      assert Timely(m.trace[instant], m.marks[instant].table);
    }
  }

  /** No command was run in between. */
  ghost predicate NothingRan(before: Machine, after: Machine) {
    after.commands == before.commands && after.leases == before.leases
  }

  /** What one question about a child may come to. A reaped child answers from memory. */
  ghost predicate Asked(before: Machine, after: Machine, pid: Pid, answer: WaitAnswer) {
    && pid < |before.procs|
    && if before.procs[pid].phase == Reaped then answer == Exited && after == before
       else
         match answer
         case StillRunning => after == Record(before, FoundRunning(pid))
         case Exited => after == Collect(before, pid)
         case WaitError => after == Fail(before, pid)
  }

  class World {
    var now: Machine

    constructor ()
      ensures now == NEW_MACHINE
      ensures Safe(now)
    {
      now := NEW_MACHINE;
      NewMachineIsSafe();
    }

    /** Sleeps for at least `ms`. */
    method Sleep(ms: nat)
      modifies this
      ensures OnlySlept(old(now), now, ms)
      ensures Safe(old(now)) ==> Safe(now)
    {
      var overrun: nat :| true;
      now := Record(now, Slept(ms)).(slept := now.slept + ms, late := now.late + overrun);
    }

    /** Runs a command. It is recorded even when it fails, because it may have acted in part. */
    method Command(a: Action) returns (ok: bool)
      requires !a.Signalled? && !a.Collected?
      modifies this
      ensures OnlyRan(old(now), now, a, ok)
      ensures Safe(old(now)) && Timely(a, old(now).procs) ==> Safe(now)
    {
      var cost: nat :| true;
      ok := *;
      now := Record(now, a).(commands := now.commands + [cost], refusals := now.refusals + NoCount(ok));
    }

    /** Asks for a lease so many times at most. Whether it got one is not looked at. */
    method RequestLease(attempts: nat)
      modifies this
      ensures |now.leases| == |old(now.leases)| + 1 && old(now.leases) <= now.leases
      ensures now.leases[|now.leases| - 1].attempts == attempts
      ensures now == Record(old(now), LeaseRequested).(leases := now.leases)
      ensures Safe(old(now)) && Timely(LeaseRequested, old(now).procs) ==> Safe(now)
    {
      var cost: nat :| true;
      now := Record(now, LeaseRequested).(leases := now.leases + [Lease(attempts, cost)]);
    }

    method Spawn(kind: Kind) returns (ok: bool)
      modifies this
      ensures now == if ok then Launch(old(now), kind)
                     else Record(old(now), Refused(kind)).(refusals := old(now).refusals + 1)
      ensures !ok && Safe(old(now)) ==> Safe(now)
    {
      ok := *;
      now := if ok then Launch(now, kind) else Record(now, Refused(kind)).(refusals := now.refusals + 1);
    }

    /** `Child::try_wait`. */
    method TryWait(pid: Pid) returns (answer: WaitAnswer)
      requires pid < |now.procs|
      modifies this
      ensures Asked(old(now), now, pid, answer)
      ensures Safe(old(now)) ==> Safe(now)
    {
      if now.procs[pid].phase == Reaped {
        return Exited;
      }
      answer := *;
      AskingIsSafe(now, pid);
      match answer
      case StillRunning => now := Record(now, FoundRunning(pid));
      case Exited => now := Collect(now, pid);
      case WaitError => now := Fail(now, pid);
    }

    method SendSignal(pid: Pid, signal: Signal)
      requires pid < |now.procs|
      requires now.procs[pid].phase != Reaped
      modifies this
      ensures now == Send(old(now), pid, signal)
      ensures Safe(old(now)) ==> Safe(now)
    {
      SendingIsSafe(now, pid, signal);
      now := Send(now, pid, signal);
    }

    /** `Child::wait` on a child that has been sent SIGKILL. */
    method Wait(pid: Pid)
      requires pid < |now.procs|
      requires now.procs[pid].phase == Killed
      modifies this
      ensures now == Collect(old(now), pid) || now == Fail(old(now), pid)
      ensures Safe(old(now)) ==> Safe(now)
    {
      var ok: bool := *;
      AskingIsSafe(now, pid);
      now := if ok then Collect(now, pid) else Fail(now, pid);
    }

    /** Whether client.conf is a file right now. */
    method ClientConfPresent() returns (present: bool)
      modifies this
      ensures now == Record(old(now), LookedForConf(present))
      ensures Safe(old(now)) ==> Safe(now)
    {
      present := *;
      now := Record(now, LookedForConf(present));
    }

    /** Whether the interface has an IPv4 address right now. */
    method HasAddress() returns (has: bool)
      modifies this
      ensures OnlyRan(old(now), now, LookedForAddress(has), has)
      ensures Safe(old(now)) ==> Safe(now)
    {
      var cost: nat :| true;
      has := *;
      now := Record(now, LookedForAddress(has)).(commands := now.commands + [cost],
                                                 refusals := now.refusals + NoCount(has));
    }

    method Announce(n: Notice)
      modifies this
      ensures now == old(now).(notices := old(now).notices + [n])
      ensures Safe(old(now)) ==> Safe(now)
    {
      now := now.(notices := now.notices + [n]);
    }
  }
}
