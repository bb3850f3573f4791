/** What every run keeps, whatever the machine answers. */
module RunProperties {
  import opened StateMachine
  import opened World
  import opened Tuning
  import opened Visits
  import opened Runs

  /** The states the hook was called with, in order. */
  ghost function Hooks(notices: seq<Notice>): seq<State> {
    if notices == [] then []
    else
      var last := notices[|notices| - 1];
      Hooks(notices[..|notices| - 1]) + if last.Hooked? then [last.state] else []
  }

  /** The states readiness was announced with, in order. */
  ghost function Readies(notices: seq<Notice>): seq<State> {
    if notices == [] then []
    else
      var last := notices[|notices| - 1];
      Readies(notices[..|notices| - 1]) + if last.Ready? then [last.state] else []
  }

  lemma OneMore(notices: seq<Notice>, n: Notice)
    ensures Hooks(notices + [n]) == Hooks(notices) + if n.Hooked? then [n.state] else []
    ensures Readies(notices + [n]) == Readies(notices) + if n.Ready? then [n.state] else []
  {
    assert (notices + [n])[..|notices|] == notices;
  }

  /** What one turn tells the outside. */
  lemma TurnTells(notices: seq<Notice>, from: State, announced: bool, next: State)
    ensures Hooks(notices + TurnNotices(from, announced, next)) ==
            Hooks(notices) + if next != from then [next] else []
    ensures Readies(notices + TurnNotices(from, announced, next)) ==
            Readies(notices) + if !announced && Settled(next) then [next] else []
  {
    var told := if next != from then notices + [Hooked(next)] else notices;
    OneMore(notices, Hooked(next));
    if !announced && Settled(next) {
      OneMore(told, Ready(next));
      assert notices + TurnNotices(from, announced, next) == told + [Ready(next)];
    } else {
      assert notices + TurnNotices(from, announced, next) == told;
    }
  }

  /** The part of a run that its notices depend on. */
  ghost predicate Tells(b: Boundary, c: Boundary) {
    && (b.state == TryClient ==> Settled(c.state))
    && (Settled(b.state) ==> c.state == TryClient || c.state == b.state)
    && c.announced == (b.announced || Settled(c.state))
    && c.machine.notices == b.machine.notices + TurnNotices(b.state, b.announced, c.state)
  }

  ghost predicate Telling(visits: seq<Boundary>) {
    && visits != []
    && Initial(visits[0])
    && forall i :: 0 <= i < |visits| - 1 ==> Tells(visits[i], visits[i + 1])
  }

  lemma RunTells(t: SuperviseTuning, hook: string, visits: seq<Boundary>, events: seq<Event>)
    requires IsRun(t, hook, visits, events)
    ensures Telling(visits)
  {
    forall i | 0 <= i < |visits| - 1
      ensures Tells(visits[i], visits[i + 1])
    {
      assert TurnAt(t, hook, visits, events, i);
    }
  }

  ghost predicate Alternates(states: seq<State>) {
    forall i :: 0 <= i < |states| ==> (states[i] == TryClient <==> i % 2 == 0)
  }

  /** What the hook has heard fits a machine now in `state`. */
  ghost predicate HeardUpTo(hooks: seq<State>, state: State) {
    hooks != [] && hooks[|hooks| - 1] == state && Alternates(hooks)
  }

  lemma HearOneMore(hooks: seq<State>, from: State, next: State)
    requires HeardUpTo(hooks, from)
    requires from == TryClient ==> Settled(next)
    requires Settled(from) ==> next == TryClient || next == from
    ensures HeardUpTo(hooks + (if next != from then [next] else []), next)
  {
    var now := hooks + if next != from then [next] else [];
    assert forall i :: 0 <= i < |hooks| ==> now[i] == hooks[i];
    assert hooks[|hooks| - 1] == TryClient <==> (|hooks| - 1) % 2 == 0;
  }

  lemma FirstNotice()
    ensures Hooks([Hooked(TryClient)]) == [TryClient] && Readies([Hooked(TryClient)]) == []
  {
    OneMore([], Hooked(TryClient));
    assert [] + [Hooked(TryClient)] == [Hooked(TryClient)];
  }

  lemma {:induction false} TellingAlternates(visits: seq<Boundary>, k: nat)
    requires Telling(visits) && k < |visits|
    ensures HeardUpTo(Hooks(visits[k].machine.notices), visits[k].state)
  {
    if k == 0 {
      FirstNotice();
    } else {
      TellingAlternates(visits, k - 1);
      var b, c := visits[k - 1], visits[k];
      assert Tells(b, c);
      TurnTells(b.machine.notices, b.state, b.announced, c.state);
      HearOneMore(Hooks(b.machine.notices), b.state, c.state);
    }
  }

  /** Readiness was announced once, right after the hook call for the first settled state. */
  ghost predicate AnnouncedOnce(notices: seq<Notice>, first: State) {
    && Settled(first)
    && [Hooked(TryClient), Hooked(first), Ready(first)] <= notices
    && Readies(notices) == [first]
  }

  lemma FirstTurnAnnounces(b: Boundary, c: Boundary)
    requires Initial(b) && Tells(b, c)
    ensures c.announced && AnnouncedOnce(c.machine.notices, c.state)
  {
    FirstNotice();
    TurnTells(b.machine.notices, b.state, b.announced, c.state);
  }

  lemma LaterTurnsDoNot(b: Boundary, c: Boundary, first: State)
    requires b.announced && AnnouncedOnce(b.machine.notices, first) && Tells(b, c)
    ensures c.announced && AnnouncedOnce(c.machine.notices, first)
  {
    TurnTells(b.machine.notices, b.state, b.announced, c.state);
  }

  lemma {:induction false} TellingIsReadyOnce(visits: seq<Boundary>, k: nat)
    requires Telling(visits) && k < |visits|
    ensures visits[k].announced <==> k > 0
    ensures k == 0 ==> Readies(visits[k].machine.notices) == []
    ensures k > 0 ==> AnnouncedOnce(visits[k].machine.notices, visits[1].state)
  {
    if k == 0 {
      FirstNotice();
    } else {
      assert Tells(visits[k - 1], visits[k]);
      if k == 1 {
        FirstTurnAnnounces(visits[0], visits[1]);
      } else {
        TellingIsReadyOnce(visits, k - 1);
        LaterTurnsDoNot(visits[k - 1], visits[k], visits[1].state);
      }
    }
  }

  /** The hook hears "try-client" first and at every other call from then on, one of the two
      settled states in between, and its last call always names the current state. */
  lemma HooksAlternate(t: SuperviseTuning, hook: string, visits: seq<Boundary>, events: seq<Event>, k: nat)
    requires IsRun(t, hook, visits, events) && k < |visits|
    ensures var hooks := Hooks(visits[k].machine.notices);
            && hooks != []
            && hooks[|hooks| - 1] == visits[k].state
            && Alternates(hooks)
  {
    RunTells(t, hook, visits, events);
    TellingAlternates(visits, k);
  }

  /** Readiness is announced exactly once, right after the hook hears of the first settled state,
      which is the state of the first turn; before that turn it is not announced. */
  lemma ReadyExactlyOnce(t: SuperviseTuning, hook: string, visits: seq<Boundary>, events: seq<Event>, k: nat)
    requires IsRun(t, hook, visits, events) && k < |visits|
    ensures visits[k].announced <==> k > 0
    ensures k == 0 ==> Readies(visits[k].machine.notices) == []
    ensures k > 0 ==>
              var first := visits[1].state;
              && Settled(first)
              && [Hooked(TryClient), Hooked(first), Ready(first)] <= visits[k].machine.notices
              && Readies(visits[k].machine.notices) == [first]
  {
    RunTells(t, hook, visits, events);
    TellingIsReadyOnce(visits, k);
  }

  /** A turn only ever moves forward. */
  lemma TurnForward(t: SuperviseTuning, hook: string, b: Boundary, e: Event, c: Boundary)
    requires Turn(t, hook, b, e, c)
    ensures Forward(b.machine, c.machine)
  {
    var m :| Visited(t, b.state, b.client, b.ap, b.machine, e, c.client, c.ap, m)
             && Told(m, c.machine, hook, b.state, c.state, b.announced);
    ForwardTransitive(b.machine, m, c.machine);
  }
}
