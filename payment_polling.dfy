/**
 * The page the payment gateway sends the guest back to
 * (frontend/src/pages/BookingSuccessPage.js). It asks the server for the
 * payment status of its session, re-asking on a timer until the payment
 * is paid, the session expired, a request failed or the attempts ran out.
 *
 * `Decide` is one run of the poll handler with the attempt count as an
 * explicit input. The page's three state variables are the fields of
 * `SuccessPage`. `PollUntilSettled` is the polling loop with the counter
 * carried from one run to the next; `PollAsWritten` is the loop the page
 * actually performs, where every rescheduled run still sees the attempt
 * count of the first render.
 */
module PaymentPolling {
  import opened Wrappers

  const MaxAttempts := 5

  /** The page's `status`: "checking", "success" or "failed". */
  datatype PageStatus = Checking | Succeeded | Failed

  /** The body of a payment-status reply. */
  datatype StatusBody = StatusBody(status: string, paymentStatus: string, bookingId: string)

  /** The answer to one status request. */
  datatype Reply = Answered(body: StatusBody) | RequestError

  /** What one run of the poll handler does. */
  datatype Decision =
    | GiveUp                     // attempts exhausted; no request is sent
    | Paid(bookingId: string)
    | Expired
    | Errored
    | Retry(nextAttempts: int)   // count one more attempt and poll again after the interval

  predicate IsPaid(reply: Reply)
  {
    reply.Answered? && reply.body.paymentStatus == "paid"
  }

  /** A reply after which the page keeps polling: answered, not paid, not expired. */
  predicate Continues(reply: Reply)
  {
    reply.Answered? && reply.body.paymentStatus != "paid" && reply.body.status != "expired"
  }

  /** One run of the poll handler, given the attempts so far and the reply its request would get. */
  function Decide(attempts: int, reply: Reply): (d: Decision)
    ensures attempts >= MaxAttempts <==> d == GiveUp
    ensures attempts < MaxAttempts && IsPaid(reply) ==> d == Paid(reply.body.bookingId)
    ensures attempts < MaxAttempts && reply.Answered? && !IsPaid(reply) && reply.body.status == "expired" ==>
      d == Expired
    ensures attempts < MaxAttempts && reply.RequestError? ==> d == Errored
    ensures d.Retry? <==> attempts < MaxAttempts && Continues(reply)
    ensures d.Retry? ==> d.nextAttempts == attempts + 1
  {
    if attempts >= MaxAttempts then GiveUp
    else match reply
      case RequestError => Errored
      case Answered(body) =>
        if body.paymentStatus == "paid" then Paid(body.bookingId)
        else if body.status == "expired" then Expired
        else Retry(attempts + 1)
  }

  /** The page status a decision leaves behind; only a retry keeps the page checking. */
  function StatusAfter(d: Decision): (s: PageStatus)
    ensures s == Checking <==> d.Retry?
    ensures s == Succeeded <==> d.Paid?
  {
    match d
    case Paid(_) => Succeeded
    case Retry(_) => Checking
    case _ => Failed
  }

  /** The page's state, with the attempt count read afresh on every run. */
  class SuccessPage {
    const sessionId: Option<string>
    var status: PageStatus
    var bookingId: Option<string>
    var attempts: int

    constructor (sessionId: Option<string>)
      ensures this.sessionId == sessionId
      ensures status == Checking && bookingId == None && attempts == 0
    {
      this.sessionId := sessionId;
      status := Checking;
      bookingId := None;
      attempts := 0;
    }

    /**
     * One run of the poll handler. A run is started on mount when the URL
     * carries a session id, and again after each retry. `reply` is the
     * server's answer to this run's request; it is ignored when no request
     * is sent. `again` says whether another run is scheduled.
     */
    method Poll(reply: Reply) returns (again: bool)
      requires sessionId.Some? && status == Checking
      modifies this
      ensures var d := Decide(old(attempts), reply);
        && status == StatusAfter(d)
        && again == d.Retry?
        && attempts == (if d.Retry? then old(attempts) + 1 else old(attempts))
        && bookingId == (if d.Paid? then Some(d.bookingId) else old(bookingId))
    {
      var d := Decide(attempts, reply);
      match d {
        case GiveUp =>
          status := Failed;
        case Paid(id) =>
          status := Succeeded;
          bookingId := Some(id);
        case Expired =>
          status := Failed;
        case Errored =>
          status := Failed;
        case Retry(next) =>
          attempts := next;
      }
      again := d.Retry?;
    }

    /**
     * One run as the page performs it after a retry: the handler is the
     * closure of the first render, so it decides on an attempt count of 0
     * and, on a retry, stores 0 + 1 however many attempts were recorded.
     */
    method PollFromFirstRender(reply: Reply) returns (again: bool)
      requires sessionId.Some? && status == Checking
      modifies this
      ensures var d := Decide(0, reply);
        && status == StatusAfter(d)
        && again == d.Retry?
        && attempts == (if d.Retry? then 1 else old(attempts))
        && bookingId == (if d.Paid? then Some(d.bookingId) else old(bookingId))
    {
      var seenAttempts := 0;   // the value captured by the first render
      var d := Decide(seenAttempts, reply);
      match d {
        case GiveUp =>
          assert false;
        case Paid(id) =>
          status := Succeeded;
          bookingId := Some(id);
        case Expired =>
          status := Failed;
        case Errored =>
          status := Failed;
        case Retry(next) =>
          attempts := next;
      }
      again := d.Retry?;
    }
  }

  /**
   * Polling with the attempt count carried from run to run. `replies[k]` is
   * the answer to the k-th status request; polling also stops when they run
   * out. At most `MaxAttempts` requests are sent, every reply before the
   * last one kept the page polling, and the page ends paid exactly when the
   * last reply said paid.
   */
  method PollUntilSettled(replies: seq<Reply>) returns (status: PageStatus, bookingId: Option<string>, requests: nat)
    ensures requests <= MaxAttempts && requests <= |replies|
    ensures forall k :: 0 <= k < requests - 1 ==> Continues(replies[k])
    ensures |replies| >= MaxAttempts ==> status != Checking
    ensures status == Checking ==> requests == |replies| && forall k :: 0 <= k < requests ==> Continues(replies[k])
    ensures status == Succeeded <==> requests > 0 && IsPaid(replies[requests - 1])
    ensures status == Succeeded ==> bookingId == Some(replies[requests - 1].body.bookingId)
    ensures status != Succeeded ==> bookingId == None
    ensures status == Failed <==>
      (requests == MaxAttempts && forall k :: 0 <= k < requests ==> Continues(replies[k]))
      || (requests > 0 && !Continues(replies[requests - 1]) && !IsPaid(replies[requests - 1]))
  {
    var attempts := 0;
    status, bookingId, requests := Checking, None, 0;
    while status == Checking && (attempts >= MaxAttempts || requests < |replies|)
      invariant 0 <= attempts <= MaxAttempts
      invariant requests <= |replies| && requests <= MaxAttempts
      invariant status == Checking ==> attempts == requests && bookingId == None
      invariant status == Checking ==> forall k :: 0 <= k < requests ==> Continues(replies[k])
      invariant status != Checking ==> forall k :: 0 <= k < requests - 1 ==> Continues(replies[k])
      invariant status == Succeeded <==> requests > 0 && IsPaid(replies[requests - 1])
      invariant status == Succeeded ==> bookingId == Some(replies[requests - 1].body.bookingId)
      invariant status != Succeeded ==> bookingId == None
      invariant status != Checking ==> (status == Failed <==>
        (requests == MaxAttempts && forall k :: 0 <= k < requests ==> Continues(replies[k]))
        || (requests > 0 && !Continues(replies[requests - 1]) && !IsPaid(replies[requests - 1])))
      decreases (if status == Checking then 1 else 0), MaxAttempts - attempts, |replies| - requests
    {
      if attempts >= MaxAttempts {
        // the run gives up before sending a request, so no reply is consumed
        status := StatusAfter(Decide(attempts, RequestError));
      } else {
        var reply := replies[requests];
        requests := requests + 1;
        var d := Decide(attempts, reply);
        status := StatusAfter(d);
        if d.Paid? {
          bookingId := Some(d.bookingId);
        }
        if d.Retry? {
          attempts := d.nextAttempts;
        }
      }
    }
  }

  /**
   * Polling as the page performs it: each rescheduled run is the closure of
   * the first render, so it reads an attempt count of 0 however many
   * attempts were recorded. While replies keep the page polling, it sends
   * one request per reply and never gives up.
   */
  method PollAsWritten(replies: seq<Reply>) returns (status: PageStatus, bookingId: Option<string>, requests: nat)
    ensures requests <= |replies|
    ensures (forall k :: 0 <= k < |replies| ==> Continues(replies[k])) ==>
      status == Checking && requests == |replies|
    ensures status == Succeeded <==> requests > 0 && IsPaid(replies[requests - 1])
    ensures status != Checking ==> requests > 0 && !Continues(replies[requests - 1])
  {
    var seenAttempts := 0;   // the value captured by the first render
    status, bookingId, requests := Checking, None, 0;
    while status == Checking && requests < |replies|
      invariant requests <= |replies|
      invariant status == Checking ==> forall k :: 0 <= k < requests ==> Continues(replies[k])
      invariant status == Succeeded <==> requests > 0 && IsPaid(replies[requests - 1])
      invariant status != Checking ==> requests > 0 && !Continues(replies[requests - 1])
      decreases |replies| - requests
    {
      var reply := replies[requests];
      requests := requests + 1;
      var d := Decide(seenAttempts, reply);
      status := StatusAfter(d);
      if d.Paid? {
        bookingId := Some(d.bookingId);
      }
    }
  }
}
