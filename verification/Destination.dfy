/** How the responses of the on-premises disk are classified. */
module Destination {
  import opened Rows

  predicate HttpStatus(status: int) {
    200 <= status < 600
  }

  /** `OnPremDiskDestination._status`: the error a response stands for, if it is not an allowed one. */
  function StatusError(status: int, allowed: set<int>, mutation: bool): Option<Error> {
    if status in allowed then None
    else if status == 401 || status == 403 then Some(Error(DestinationRefusal, false, true, status == 403))
    else
      var code := match status
        case 404 => DestinationOutage
        case 409 => DestinationConflict
        case 413 => DestinationRefusal
        case 423 => DestinationRefusal
        case 429 => DestinationOutage
        case 507 => DestinationRefusal
        case _ => DestinationOutage;
      Some(Error(code, mutation && (status >= 500 || 200 <= status < 400), false, false))
  }

  /** A mutation is reported as certainly rejected exactly for the 4xx responses that are not allowed. Of their
    * errors only the conflict is definite by itself; the others read like an outage.
    */
  lemma {:induction false} RejectionIsDefinite(status: int, allowed: set<int>)
    requires HttpStatus(status)
    ensures var o := StatusError(status, allowed, true);
            && (o.Some? && !o.value.uncertain <==> 400 <= status < 500 && status !in allowed)
            && (o.Some? && Definite(o.value) <==> status == 409 && status !in allowed)
            && (o.Some? && o.value.auth <==> status in {401, 403} && status !in allowed)
  {
    var o := StatusError(status, allowed, true);
    if o.Some? && status != 401 && status != 403 {
      assert o.value.uncertain <==> status >= 500 || status < 400;
    }
  }
}
