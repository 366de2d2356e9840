/**
 * The connect-result handler's translation of the broker's CONNACK return
 * code (section 3.2.2.3 of the MQTT 3.1.1 standard): 0 accepts the
 * connection; 1 to 5 are the standard refusals; any other code is reported
 * as an unknown error.
 */
module Connack {

  const REFUSALS: map<int, string> := map[
    1 := "Incorrect protocol version",
    2 := "Invalid client identifier",
    3 := "Server unavailable",
    4 := "Bad username or password",
    5 := "Not authorized"
  ]

  const UNKNOWN_ERROR: string := "Unknown error"

  /** What the handler reports for a connection attempt. */
  datatype Outcome = Accepted | Refused(reason: string)

  /** The reason reported for a refused connection. */
  function RefusalReason(rc: int): (reason: string)
    ensures reason != UNKNOWN_ERROR <==> 1 <= rc <= 5
    ensures 1 <= rc <= 5 ==> reason == REFUSALS[rc]
  {
    if rc in REFUSALS then REFUSALS[rc] else UNKNOWN_ERROR
  }

  /** Code 0 accepts; every other code is a refusal with its reason. */
  function Classify(rc: int): (o: Outcome)
    ensures o.Accepted? <==> rc == 0
    ensures o.Refused? ==> (o.reason == UNKNOWN_ERROR <==> !(1 <= rc <= 5))
    ensures o.Refused? ==> o.reason == RefusalReason(rc)
  {
    if rc == 0 then Accepted else Refused(RefusalReason(rc))
  }

  /**
   * The connection flag after a connect result: raised by code 0 and left
   * as it was by any other code, so it is never lowered.
   */
  function ConnectedAfter(connected: bool, rc: int): (c: bool)
    ensures connected ==> c
    ensures c <==> connected || Classify(rc).Accepted?
  {
    if rc == 0 then true else connected
  }

  /** The five standard refusals are told apart by their reasons. */
  lemma RefusalReasonsDistinct(a: int, b: int)
    requires 1 <= a <= 5 && 1 <= b <= 5
    requires RefusalReason(a) == RefusalReason(b)
    ensures a == b
  {
  }
}
