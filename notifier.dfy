/** The delivery client (agriwin_api/notificar.go), reduced to the rule it
    applies to the reply: the HTTP call is an oracle that answers with a
    status code or not at all. */
module Notifier {
  import opened Wrappers
  import opened Errors

  /** The reply to the POST of a payload; SendNoResponse is a failed call. */
  datatype SendResponse = SendNoResponse | SendStatus(status: int)

  /** A status in [200, 300). */
  predicate Is2xx(status: int) {
    200 <= status < 300
  }

  /** `Send`'s verdict on the reply: nil for any 2xx status, an error otherwise. */
  function SendOutcome(resp: SendResponse): (r: Outcome<Error>)
    ensures r.Pass? <==> resp.SendStatus? && Is2xx(resp.status)
    ensures resp.SendNoResponse? ==> r == Fail(DeliveryFailed)
    ensures resp.SendStatus? && !Is2xx(resp.status) ==> r == Fail(DeliveryBadStatus(resp.status))
  {
    if resp.SendNoResponse? then Fail(DeliveryFailed)
    else if resp.status < 200 || resp.status >= 300 then Fail(DeliveryBadStatus(resp.status))
    else Pass
  }

  /** Unlike authentication, delivery accepts every 2xx status, and only those. */
  lemma DeliveryAcceptsAny2xx(status: int)
    ensures SendOutcome(SendStatus(status)).Pass? <==> 200 <= status <= 299
  {
  }
}
