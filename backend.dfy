/**
 * The contract between the page and the remote stamp service. The service
 * itself (customer records, visit counting, deduplication) is outside the
 * model: its answer to each request is an input of the operation that sends
 * the request.
 */
module Backend {
  import opened Wrappers

  /** The scan-source tag identifier every visit request carries. */
  const ScanTag := "DODO-T001-Test"

  /** Fallback error texts of the two onboarding steps. */
  const UnknownError := "An unknown error occurred."
  const FirstVisitError := "Failed to record first visit."

  /** The customer as the service returns it; the page reads only these fields. */
  datatype Customer = Customer(name: string, phoneNumber: string)

  /** Body of a successful `POST /api/visit`. */
  datatype VisitResult = VisitResult(customer: Customer, totalVisits: int)

  /** Body of a successful `POST /api/register`: the phone number as the service stored it. */
  datatype RegisterResult = RegisterResult(phoneNumber: string)

  /** A request the page sends. */
  datatype Request =
    | RegisterRequest(name: string, phone: string, email: string)
    | VisitRequest(phone: string, tagId: string)

  /**
   * How a request ends, as the page observes it:
   *  - Ok: a 2xx status with a well-formed body;
   *  - HttpError: a non-2xx status whose JSON body has an optional `error` field;
   *  - Unreachable: `fetch` or `response.json()` threw (network failure, body
   *    that is not JSON); `reason` is the message of that exception.
   */
  datatype Response<+T> =
    | Ok(body: T)
    | HttpError(error: Option<string>)
    | Unreachable(reason: string)

  /**
   * The message a failed step throws and the form then shows:
   * `new Error(result.error || fallback)` for a non-2xx answer, the runtime's
   * own message when the call threw before that.
   */
  function FailureMessage<T>(response: Response<T>, fallback: string): (m: string)
    requires !response.Ok?
    ensures response.HttpError? && response.error.Some? && response.error.value != "" ==> m == response.error.value
    ensures response.HttpError? && (response.error.None? || response.error.value == "") ==> m == fallback
    ensures response.Unreachable? ==> m == response.reason
    ensures fallback != "" && (response.Unreachable? ==> response.reason != "") ==> m != ""
  {
    match response
    case HttpError(error) => if error.Some? && error.value != "" then error.value else fallback
    case Unreachable(reason) => reason
  }

  /** The browser's `fetch`: records every request sent, in order. */
  class Network {
    var sent: seq<Request>

    constructor ()
      ensures sent == []
    {
      sent := [];
    }

    /** Sends `request`; the service's answer, `answer`, is what the call returns. */
    method Fetch<T>(request: Request, answer: Response<T>) returns (r: Response<T>)
      modifies this
      ensures sent == old(sent) + [request]
      ensures r == answer
    {
      sent := sent + [request];
      r := answer;
    }
  }
}
