/** The shared HTTP client of `src/libs/axios.ts`: which replies resolve the request promise
    and which reject it, sending the caller to its `catch` branch. */
module Axios {

  /** `validateStatus`: a status resolves the request when it lies in [200, 500). */
  predicate ValidateStatus(status: int) {
    status >= 200 && status < 500
  }

  /** The accepted statuses are exactly the success, redirect and client-error classes. */
  lemma ValidateStatusRange(status: int)
    ensures ValidateStatus(status) <==> 200 <= status <= 499
    ensures status < 200 ==> !ValidateStatus(status)
    ensures status >= 500 ==> !ValidateStatus(status)
    ensures ValidateStatus(200) && ValidateStatus(499) && !ValidateStatus(500) && !ValidateStatus(199)
  {
  }

  /** What a request produced: a reply with a status and a body, or no reply at all
      (a network failure). */
  datatype Reply<T> = Reply(status: int, data: T) | NoReply

  /** The request promise resolved with exactly this status. A reply that `validateStatus`
      rejects, or no reply, never resolves, whatever the status compared against. */
  predicate Delivers<T>(r: Reply<T>, code: int) {
    r.Reply? && ValidateStatus(r.status) && r.status == code
  }

  /** A 5xx reply, or none, matches no expected status: the caller ends in its `catch` branch. */
  lemma ServerErrorsReachCatch<T>(r: Reply<T>, code: int)
    requires r.NoReply? || r.status >= 500 || r.status < 200
    ensures !Delivers(r, code)
  {
  }

  /** A request as a component issues it. */
  datatype Request<B> = Request(verb: string, url: string, body: B)
}
