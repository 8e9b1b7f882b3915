/** The legacy request wrapper (backend/utils/hubspotClient.js): every
    attempt waits 200 ms first; a reply with status 429 is retried while
    retries remain, after a back-off of `2000 * (4 - retries)` ms; any other
    failure is rethrown at once. The network is a function from the attempt
    number to what that attempt gets back, and the waits are returned as a
    list of durations instead of being slept. */
module HubSpotClient {
  import opened Common

  /** What one attempt gets: the response body, or an error with the HTTP
      status of its response (`None` when there was no response). */
  datatype Attempt<T> = Ok(data: T) | HttpError(status: Option<int>)

  /** How the request ends: the response body, or the error of the last
      attempt. */
  datatype Outcome<T> = Returned(data: T) | Threw(status: Option<int>)

  /** The outcome, how many attempts were made, and every wait in order. */
  datatype Trace<T> = Trace(outcome: Outcome<T>, attempts: nat, delays: seq<int>)

  /** The pause before every attempt. */
  const RateLimitDelay := 200

  /** The retries a request gets when the caller gives none. */
  const DefaultRetries := 3

  /** `setTimeout(resolve, 2000 * (4 - retries))`: a timer shorter than one
      millisecond fires after one. */
  function Backoff(retries: int): (ms: int)
    ensures ms >= 1
    ensures retries <= 3 ==> ms == 2000 * (4 - retries)
  {
    if 2000 * (4 - retries) >= 1 then 2000 * (4 - retries) else 1
  }

  /** Only a 429 reply is retried, and only while retries remain. */
  predicate Retried<T>(a: Attempt<T>, retries: int) {
    a.HttpError? && a.status == Some(429) && retries > 0
  }

  /** `hubspotRequest(method, url, data, retries)`, its first attempt being
      attempt number `k`. */
  function Request<T>(replies: nat -> Attempt<T>, retries: int, k: nat): Trace<T>
    decreases if retries > 0 then retries else 0
  {
    var a := replies(k);
    if Retried(a, retries) then
      var rest := Request(replies, retries - 1, k + 1);
      Trace(rest.outcome, rest.attempts + 1, [RateLimitDelay, Backoff(retries)] + rest.delays)
    else
      Trace(if a.Ok? then Returned(a.data) else Threw(a.status), 1, [RateLimitDelay])
  }

  /** Attempt `i` of a request whose first attempt is number `k` got a 429
      while retries remained. */
  predicate RetriedAt<T>(replies: nat -> Attempt<T>, retries: int, k: nat, i: nat) {
    Retried(replies(k + i), retries - i)
  }

  function Max(a: int, b: int): int {
    if a >= b then a else b
  }

  /** The request stops after at most `retries + 1` attempts; every attempt
      but the last got a 429 with retries left; the outcome is what the last
      attempt got; and it stops early only on a success or an error that is
      not retried. */
  lemma {:induction false} RequestShape<T>(replies: nat -> Attempt<T>, retries: int, k: nat)
    ensures var r := Request(replies, retries, k);
            1 <= r.attempts <= Max(retries, 0) + 1
    ensures forall i: nat :: i < Request(replies, retries, k).attempts - 1 ==> RetriedAt(replies, retries, k, i)
    ensures !Retried(replies(k + Request(replies, retries, k).attempts - 1),
                     retries - (Request(replies, retries, k).attempts - 1))
    ensures Request(replies, retries, k).outcome
            == match replies(k + Request(replies, retries, k).attempts - 1)
               case Ok(d) => Returned(d)
               case HttpError(s) => Threw(s)
    ensures |Request(replies, retries, k).delays| == 2 * Request(replies, retries, k).attempts - 1
    decreases if retries > 0 then retries else 0
  {
    if Retried(replies(k), retries) {
      RequestShape(replies, retries - 1, k + 1);
      var rest := Request(replies, retries - 1, k + 1);
      forall i: nat | i < rest.attempts
        ensures RetriedAt(replies, retries, k, i)
      {
        if i > 0 {
          assert RetriedAt(replies, retries - 1, k + 1, i - 1);
          assert k + i == (k + 1) + (i - 1);
        }
      }
    }
  }

  /** A success is returned unchanged after one attempt and one 200 ms wait. */
  lemma SuccessPassesThrough<T>(replies: nat -> Attempt<T>, retries: int, k: nat)
    requires replies(k).Ok?
    ensures Request(replies, retries, k) == Trace(Returned(replies(k).data), 1, [RateLimitDelay])
  {
  }

  /** An error other than 429 is rethrown after one attempt, whatever the
      retries left. */
  lemma OtherErrorsNotRetried<T>(replies: nat -> Attempt<T>, retries: int, k: nat)
    requires replies(k).HttpError? && replies(k).status != Some(429)
    ensures Request(replies, retries, k) == Trace(Threw(replies(k).status), 1, [RateLimitDelay])
  {
  }

  /** With the default three retries and HubSpot answering 429 every time,
      the request makes four attempts and waits 200, 2000, 200, 4000, 200,
      6000 and 200 ms: the back-off grows linearly. */
  lemma {:induction false} DefaultExhaustion<T>(replies: nat -> Attempt<T>)
    requires forall i :: replies(i) == HttpError(Some(429))
    ensures Request(replies, DefaultRetries, 0)
            == Trace(Threw(Some(429)), 4, [200, 2000, 200, 4000, 200, 6000, 200])
  {
    var r0 := Request(replies, 0, 3);
    assert r0 == Trace(Threw(Some(429)), 1, [200]);
    var r1 := Request(replies, 1, 2);
    assert r1 == Trace(Threw(Some(429)), 2, [200, 6000] + [200]);
    var r2 := Request(replies, 2, 1);
    assert r2 == Trace(Threw(Some(429)), 3, [200, 4000] + [200, 6000, 200]);
    assert Request(replies, 3, 0) == Trace(Threw(Some(429)), 4, [200, 2000] + [200, 4000, 200, 6000, 200]);
  }
}
