/**
 * The message the example application's payment page shows for a payment
 * (`_to_msg` of project_template/backend/src/web/pagseguro/home.py).
 */
module HomeMessages {
  import opened Wrappers
  import opened PagSegModel

  const Processing: string := "PROCESSING"
  const Ok: string := "OK"
  const Problem: string := "PROBLEM"

  /** Statuses of a payment the gateway has not settled yet. */
  predicate InProgress(s: Status)
  {
    s == Created || s == SentToPagseguro || s == Analysis
  }

  /** Statuses of a payment the gateway has settled. */
  predicate Settled(s: Status)
  {
    s == Accepted || s == Available
  }

  /**
   * _to_msg: PROCESSING for a payment in progress, OK for a settled one and
   * PROBLEM for everything else, a name outside the table included.
   */
  function ToMsg(status: string): (r: string)
    ensures r == Processing || r == Ok || r == Problem
    ensures r == Processing <==> StatusFromName(status).Some? && InProgress(StatusFromName(status).value)
    ensures r == Ok <==> StatusFromName(status).Some? && Settled(StatusFromName(status).value)
  {
    match StatusFromName(status)
    case Some(Created) => Processing
    case Some(SentToPagseguro) => Processing
    case Some(Analysis) => Processing
    case Some(Accepted) => Ok
    case Some(Available) => Ok
    case _ => Problem
  }

  /** Disputed, returned, cancelled and charged-back payments are problems. */
  lemma ProblemStatuses(s: Status)
    ensures ToMsg(StatusName(s)) == Problem <==>
      s == Dispute || s == Returned || s == Cancelled || s == Chargeback || s == ChargebackDebt
  {
    StatusNameRoundTrip(s);
  }
}
