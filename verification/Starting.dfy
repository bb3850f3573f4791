/** Pulling and starting the selected stacks: every one is attempted, and every one is accounted for. */
module Starting {
  import opened Sequences
  import opened Targets
  import opened Merging
  import opened Experiments

  datatype Verb = Pull | Up

  datatype Call = Call(verb: Verb, target: Target)

  function Words(verb: Verb): seq<string> {
    match verb
    case Pull => ["pull", "--quiet"]
    case Up => ["up", "-d", "--remove-orphans"]
  }

  /** How docker answers: whether the images of an experiment could be pulled, and whether it came
      up. */
  datatype Docker = Docker(pulls: ExperimentName -> bool, ups: ExperimentName -> bool)

  predicate Attempts(docker: Docker, ignorePullFailures: bool, t: Target) {
    docker.pulls(t.name) || ignorePullFailures
  }

  function Starts(docker: Docker, ignorePullFailures: bool): Target -> bool {
    (t: Target) => Attempts(docker, ignorePullFailures, t) && docker.ups(t.name)
  }

  function Fails(docker: Docker, ignorePullFailures: bool): Target -> bool {
    (t: Target) => !(Attempts(docker, ignorePullFailures, t) && docker.ups(t.name))
  }

  /** What is asked of docker for one target: a pull, and an up only on the strength of it. */
  function CallsFor(docker: Docker, ignorePullFailures: bool, t: Target): seq<Call> {
    [Call(Pull, t)] + if Attempts(docker, ignorePullFailures, t) then [Call(Up, t)] else []
  }

  function AllCalls(docker: Docker, ignorePullFailures: bool, ts: seq<Target>): seq<Call> {
    if ts == [] then []
    else AllCalls(docker, ignorePullFailures, ts[..|ts| - 1]) + CallsFor(docker, ignorePullFailures, ts[|ts| - 1])
  }

  /** Failures are collected, never raised early; the command succeeds when there were none. */
  method Start(targets: seq<Target>, ignorePullFailures: bool, docker: Docker)
    returns (calls: seq<Call>, failed: seq<ExperimentName>, ok: bool)
    ensures calls == AllCalls(docker, ignorePullFailures, targets)
    ensures failed == Names(Filter(targets, Fails(docker, ignorePullFailures)))
    ensures ok <==> failed == []
  {
    calls, failed := [], [];
    ghost var fails := Fails(docker, ignorePullFailures);
    for i := 0 to |targets|
      invariant calls == AllCalls(docker, ignorePullFailures, targets[..i])
      invariant failed == Names(Filter(targets[..i], fails))
    {
      var t := targets[i];
      assert targets[..i + 1][..i] == targets[..i];
      FilterOneMore(targets, i, fails);
      assert Names(Filter(targets[..i], fails) + [t]) == Names(Filter(targets[..i], fails)) + [t.name];

      calls := calls + [Call(Pull, t)];
      if !docker.pulls(t.name) {
        if !ignorePullFailures {
          failed := failed + [t.name];
          continue;
        }
      }

      calls := calls + [Call(Up, t)];
      if !docker.ups(t.name) {
        failed := failed + [t.name];
      }
    }
    assert targets[..|targets|] == targets;
    ok := failed == [];
  }

  /** The targets one verb was called for, in order. */
  function CalledFor(calls: seq<Call>, verb: Verb): seq<Target> {
    if calls == [] then []
    else
      CalledFor(calls[..|calls| - 1], verb)
      + if calls[|calls| - 1].verb == verb then [calls[|calls| - 1].target] else []
  }

  lemma OneMoreCall(calls: seq<Call>, c: Call, verb: Verb)
    ensures CalledFor(calls + [c], verb) == CalledFor(calls, verb) + if c.verb == verb then [c.target] else []
  {
    assert (calls + [c])[..|calls|] == calls;
  }

  function Attempted(docker: Docker, ignorePullFailures: bool): Target -> bool {
    (t: Target) => Attempts(docker, ignorePullFailures, t)
  }

  lemma CallsForOneMore(docker: Docker, ignorePullFailures: bool, before: seq<Call>, t: Target)
    ensures var calls := before + CallsFor(docker, ignorePullFailures, t);
            && CalledFor(calls, Pull) == CalledFor(before, Pull) + [t]
            && CalledFor(calls, Up) ==
               CalledFor(before, Up) + if Attempts(docker, ignorePullFailures, t) then [t] else []
  {
    var pulled := before + [Call(Pull, t)];
    OneMoreCall(before, Call(Pull, t), Pull);
    OneMoreCall(before, Call(Pull, t), Up);
    if Attempts(docker, ignorePullFailures, t) {
      OneMoreCall(pulled, Call(Up, t), Pull);
      OneMoreCall(pulled, Call(Up, t), Up);
      assert before + CallsFor(docker, ignorePullFailures, t) == pulled + [Call(Up, t)];
    } else {
      assert before + CallsFor(docker, ignorePullFailures, t) == pulled;
    }
  }

  /** Every target is pulled exactly once, in order, whatever happened to the others; and brought up
      exactly when its own pull worked or failures are ignored, in the same order. */
  lemma {:induction false} EveryTargetIsAttempted(docker: Docker, ignorePullFailures: bool, ts: seq<Target>)
    ensures var calls := AllCalls(docker, ignorePullFailures, ts);
            && CalledFor(calls, Pull) == ts
            && CalledFor(calls, Up) == Filter(ts, Attempted(docker, ignorePullFailures))
  {
    if ts != [] {
      var init, last := ts[..|ts| - 1], ts[|ts| - 1];
      EveryTargetIsAttempted(docker, ignorePullFailures, init);
      CallsForOneMore(docker, ignorePullFailures, AllCalls(docker, ignorePullFailures, init), last);
      FilterLast(ts, Attempted(docker, ignorePullFailures));
      assert ts == init + [last];
    }
  }

  /** Up always comes right after the pull of the same target. */
  lemma {:induction false} UpFollowsItsPull(docker: Docker, ignorePullFailures: bool, ts: seq<Target>, i: nat)
    requires i < |AllCalls(docker, ignorePullFailures, ts)|
    requires AllCalls(docker, ignorePullFailures, ts)[i].verb == Up
    ensures i > 0
    ensures var calls := AllCalls(docker, ignorePullFailures, ts); calls[i - 1] == Call(Pull, calls[i].target)
  {
    var init := ts[..|ts| - 1];
    if i < |AllCalls(docker, ignorePullFailures, init)| {
      UpFollowsItsPull(docker, ignorePullFailures, init, i);
    }
  }

  /** Every selected experiment is either started or reported as failed, never both and never
      twice; nothing else is reported. */
  lemma EveryTargetIsAccountedFor(docker: Docker, ignorePullFailures: bool, ts: seq<Target>)
    requires Distinct(Names(ts))
    ensures var started := Filter(ts, Starts(docker, ignorePullFailures));
            var failed := Names(Filter(ts, Fails(docker, ignorePullFailures)));
            && |started| + |failed| == |ts|
            && Distinct(failed)
            && (forall name :: name in Names(ts) <==> name in Names(started) || name in failed)
            && (forall name :: !(name in Names(started) && name in failed))
  {
    var starts, fails := Starts(docker, ignorePullFailures), Fails(docker, ignorePullFailures);
    FilterSplits(ts, starts, fails);
    FilterKeepsDistinctNames(ts, starts);
    FilterKeepsDistinctNames(ts, fails);
    forall name
      ensures name in Names(ts) <==> name in Names(Filter(ts, starts)) || name in Names(Filter(ts, fails))
      ensures !(name in Names(Filter(ts, starts)) && name in Names(Filter(ts, fails)))
    {
      NamedAmong(ts, name);
      NamedAmong(Filter(ts, starts), name);
      NamedAmong(Filter(ts, fails), name);
      FilterMembers(ts, starts);
      FilterMembers(ts, fails);
    }
  }

  /** From the command line to the report: whatever was asked for, every experiment selected is
      pulled exactly once and is either started or reported, and none is both. */
  lemma SelectedAreAccountedFor(docker: Docker, ignorePullFailures: bool, asked: seq<Target>, fallback: Fallback,
                                enabled: string, entries: seq<string>, present: string -> bool)
    requires Distinct(entries) && Select(asked, fallback, enabled, entries, present).Ok?
    ensures var ts := Select(asked, fallback, enabled, entries, present).value;
            var started := Names(Filter(ts, Starts(docker, ignorePullFailures)));
            var failed := Names(Filter(ts, Fails(docker, ignorePullFailures)));
            && Selected(asked, fallback, enabled, entries, present, ts)
            && CalledFor(AllCalls(docker, ignorePullFailures, ts), Pull) == ts
            && |started| + |failed| == |ts|
            && Distinct(failed)
            && (forall name :: name in Names(ts) <==> name in started || name in failed)
            && (forall name :: !(name in started && name in failed))
  {
    var ts := Select(asked, fallback, enabled, entries, present).value;
    SelectionIsDistinct(asked, fallback, enabled, entries, present);
    SelectsWhatWasAskedFor(asked, fallback, enabled, entries, present);
    EveryTargetIsAttempted(docker, ignorePullFailures, ts);
    EveryTargetIsAccountedFor(docker, ignorePullFailures, ts);
  }

  lemma NamedAmong(ts: seq<Target>, name: ExperimentName)
    ensures name in Names(ts) <==> exists t :: t in ts && t.name == name
  {
    if name in Names(ts) {
      var i :| 0 <= i < |ts| && Names(ts)[i] == name;
      assert ts[i] in ts;
    }
    if t :| t in ts && t.name == name {
      var i :| 0 <= i < |ts| && ts[i] == t;
      assert Names(ts)[i] == name;
    }
  }

  /** Both verbs' argument lists read back as the target's profiles and the verb. */
  lemma CallsReadBack(dir: string, c: Call)
    ensures var args := ComposeArgs(dir, c.target.name, c.target.profiles, Words(c.verb));
            var words := match c.verb
                         case Pull => ["pull", "--quiet"]
                         case Up => ["up", "-d", "--remove-orphans"];
            |args| >= 5 && ReadFlags(args[5..]) == (ProfileWords(c.target.profiles), words)
  {
    assert Words(c.verb)[0][0] != PROFILE_FLAG[0];
    ComposeArgsReadBack(dir, c.target.name, c.target.profiles, Words(c.verb));
  }
}
