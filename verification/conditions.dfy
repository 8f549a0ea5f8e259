/**
 * Cluster API conditions as the two reconcilers use them: a map from condition
 * type to the latest status, reason, severity and message.
 */
module Conditions {

  datatype Severity = SeverityNone | SeverityInfo | SeverityWarning | SeverityError

  datatype Condition = Condition(status: bool, reason: string, severity: Severity, message: string)

  type Conditions = map<string, Condition>

  const Ready := "Ready"
  const NetworkReady := "NetworkReady"
  const VMReady := "VMReady"
  const BootstrapDataReady := "BootstrapDataReady"

  /** The condition is present with status True. */
  predicate IsTrue(cs: Conditions, t: string) {
    t in cs && cs[t].status
  }

  /** The condition is present with status False. */
  predicate IsFalse(cs: Conditions, t: string) {
    t in cs && !cs[t].status
  }

  /** The condition is present with status False and the given reason. */
  predicate IsFalseWith(cs: Conditions, t: string, reason: string) {
    IsFalse(cs, t) && cs[t].reason == reason
  }

  /** No condition other than `t` differs between `a` and `b`. */
  predicate OnlyChanged(a: Conditions, b: Conditions, t: string) {
    b.Keys == a.Keys + {t} && forall u :: u in a && u != t ==> b[u] == a[u]
  }

  /** `conditions.MarkTrue`: `t` becomes True, nothing else changes. */
  function MarkTrue(cs: Conditions, t: string): (r: Conditions)
    ensures IsTrue(r, t) && r[t].reason == ""
    ensures OnlyChanged(cs, r, t)
  {
    cs[t := Condition(true, "", SeverityNone, "")]
  }

  /** `conditions.MarkFalse`: `t` becomes False with a reason, nothing else changes. */
  function MarkFalse(cs: Conditions, t: string, reason: string, severity: Severity, message: string): (r: Conditions)
    ensures IsFalseWith(r, t, reason) && r[t].severity == severity && r[t].message == message
    ensures OnlyChanged(cs, r, t)
  {
    cs[t := Condition(false, reason, severity, message)]
  }
}
