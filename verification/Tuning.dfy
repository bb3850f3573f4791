/** The supervisor's knobs, in seconds, and the lower bounds its loops rely on. */
module Tuning {
  datatype SuperviseTuning = SuperviseTuning(
    connectTimeoutSec: nat,
    clientAttempts: nat,
    retrySec: nat,
    linkPollSec: nat,
    apRetrySec: nat)
  {
    predicate Clamped() {
      1 <= clientAttempts && 1 <= linkPollSec && 1 <= apRetrySec
    }

    /** No knob is set lower than in `low`. */
    predicate NoLess(low: SuperviseTuning) {
      && low.connectTimeoutSec <= connectTimeoutSec
      && low.clientAttempts <= clientAttempts
      && low.retrySec <= retrySec
      && low.linkPollSec <= linkPollSec
      && low.apRetrySec <= apRetrySec
    }
  }

  /** The settings of an image whose profile does not say otherwise. */
  const SHIPPED := SuperviseTuning(45, 3, 5, 10, 300)

  function Max(a: nat, b: nat): nat {
    if a < b then b else a
  }

  /** The environment may say anything, including zero; what counts is the lowest setting that is
      no lower than that and that the loops can work with. */
  function FromEnv(env: SuperviseTuning): (t: SuperviseTuning)
    ensures t.Clamped() && t.NoLess(env)
    ensures forall u: SuperviseTuning :: u.Clamped() && u.NoLess(env) ==> u.NoLess(t)
  {
    SuperviseTuning(env.connectTimeoutSec, Max(env.clientAttempts, 1), env.retrySec,
                    Max(env.linkPollSec, 1), Max(env.apRetrySec, 1))
  }

  const DHCP_ATTEMPT_TIMEOUT_SEC := 5

  function DivCeil(a: nat, b: nat): nat
    requires b > 0
  {
    (a + b - 1) / b
  }

  /** How many leases udhcpc is told to ask for. */
  function DhcpAttempts(t: SuperviseTuning): nat {
    Max(DivCeil(t.connectTimeoutSec, DHCP_ATTEMPT_TIMEOUT_SEC), 1)
  }

  /** The lease attempts together last at least the configured timeout, and less than one
      attempt longer; a zero timeout still makes one attempt. */
  lemma DhcpAttemptsCoverTimeout(t: SuperviseTuning)
    ensures 1 <= DhcpAttempts(t)
    ensures t.connectTimeoutSec >= 1 ==>
              t.connectTimeoutSec <= DHCP_ATTEMPT_TIMEOUT_SEC * DhcpAttempts(t)
                                  < t.connectTimeoutSec + DHCP_ATTEMPT_TIMEOUT_SEC
    ensures t.connectTimeoutSec == 0 ==> DhcpAttempts(t) == 1
  {
  }

  lemma FactorOrder(a: int, b: int, d: nat)
    requires a * d < b * d
    ensures a < b
  {
    assert (b - a) * d > 0;
  }

  /** The only number of whole periods that reaches `total` no sooner than needed. */
  lemma PeriodsAreCeil(periods: nat, period: nat, total: nat)
    requires 1 <= period
    requires (periods - 1) * period < total <= periods * period
    ensures periods == DivCeil(total, period)
  {
    var q := DivCeil(total, period);
    assert q * period <= total + period - 1 < q * period + period;
    FactorOrder(q, periods + 1, period);
    FactorOrder(periods - 1, q, period);
  }
}
