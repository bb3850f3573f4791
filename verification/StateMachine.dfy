/** States, events and the table that leads from one state to the next. */
module StateMachine {
  datatype State = TryClient | ClientUp | FallbackAp

  datatype Event =
    | ClientConnected
    | ClientFailed
    | ClientConfigMissing
    | LinkLost
    | ApRetryDue
    | ApDied
    | ApHeld

  function HookName(s: State): string {
    match s
    case TryClient => "try-client"
    case ClientUp => "client-up"
    case FallbackAp => "fallback-ap"
  }

  /** What the hook is told by whoever takes the whole stack down. */
  const OFF := "off"

  /** A hook can tell every state from every other and from no state. */
  lemma HookNamesTellStatesApart(a: State, b: State)
    ensures HookName(TryClient) == "try-client" && HookName(ClientUp) == "client-up"
    ensures HookName(FallbackAp) == "fallback-ap" && OFF == "off"
    ensures HookName(a) == HookName(b) <==> a == b
    ensures HookName(a) != OFF
  {
    assert HookName(TryClient)[0] == 't' && HookName(ClientUp)[0] == 'c' && HookName(FallbackAp)[0] == 'f';
    assert OFF[0] == 'o';
  }

  function NextState(current: State, event: Event): State {
    match event
    case ClientConnected => ClientUp
    case ClientFailed | ClientConfigMissing => FallbackAp
    case LinkLost => TryClient
    case ApRetryDue => TryClient
    case ApDied | ApHeld => FallbackAp
  }

  /** The events the driver can raise while it is in state `s`. */
  predicate Raises(s: State, e: Event) {
    match s
    case TryClient => e.ClientConnected? || e.ClientFailed? || e.ClientConfigMissing?
    case ClientUp => e.LinkLost?
    case FallbackAp => e.ApRetryDue? || e.ApDied? || e.ApHeld?
  }
}
