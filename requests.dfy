/**
 * The HTTP side of `TFL_API.get`, shared by both scripts: the retry loop
 * that waits and re-sends on status 429 (Too Many Requests, section 4 of
 * RFC 6585), doubling the wait from 10 seconds and giving up once the wait
 * would exceed 200 seconds.
 *
 * The network is an oracle: `fetch(i)` is the response to the i-th send of
 * one call. A response body is a JSON value, told apart as far as the
 * callers' truthiness tests, `for...of` loops and `forEach` calls tell it
 * apart.
 */
module Requests {
  import opened Wrappers

  /** A parsed JSON body: an array of records; a string, which `for...of`
      walks character by character and which is falsy when empty; a scalar
      (`null`, a boolean or a number), falsy for `null`, `false` and `0`,
      and never iterable; or an object (the API's error answer), truthy and
      not iterable. Only an array has `forEach`. */
  datatype Json<T> = List(items: seq<T>) | Text(chars: string) | Scalar(truthy: bool) | Object

  datatype Response<J> = Response(status: int, body: J)

  /** What `get` hands back: `undefined` (the call was refused before any
      request), `null` (rate limited to the end), or the parsed body. */
  datatype Fetched<J> = Rejected | Exhausted | Body(json: J)

  /** The result of the retry loop and the waits, in seconds, it made. */
  datatype Outcome<J> = Outcome(result: Fetched<J>, waits: seq<int>)

  const TooManyRequests: int := 429
  const FirstWait: int := 10
  const WaitCap: int := 200

  /** The wait in hand before send number `n`: 10 seconds, doubled per send. */
  function Wait(n: nat): (w: int)
    ensures w >= FirstWait
  {
    if n == 0 then FirstWait else 2 * Wait(n - 1)
  }

  /** The waits, in seconds, before the second to the sixth send. */
  const Backoff: seq<int> := [10, 20, 40, 80, 160]

  /** The rest of the loop from send number `attempt` with the wait
      `retryAfter` in hand: the result and the waits still to come. */
  function RetryFrom<J>(fetch: nat -> Response<J>, attempt: nat, retryAfter: int): Outcome<J>
    requires retryAfter > 0
    decreases if retryAfter > WaitCap then 0 else WaitCap + 1 - retryAfter
  {
    if fetch(attempt).status != TooManyRequests then Outcome(Body(fetch(attempt).body), [])
    else if retryAfter > WaitCap then Outcome(Exhausted, [])
    else
      var rest := RetryFrom(fetch, attempt + 1, retryAfter * 2);
      Outcome(rest.result, [retryAfter] + rest.waits)
  }

  /** The whole loop, from the first send with a 10 second wait in hand. */
  function RetryOutcome<J>(fetch: nat -> Response<J>): Outcome<J> {
    RetryFrom(fetch, 0, FirstWait)
  }

  /** Six 429 answers in a row: the waits are 10, 20, 40, 80 and 160
      seconds, then the call gives up with `null`. */
  lemma AllRateLimited<J>(fetch: nat -> Response<J>)
    requires forall i :: 0 <= i <= 5 ==> fetch(i).status == TooManyRequests
    ensures RetryOutcome(fetch).result == Exhausted && RetryOutcome(fetch).waits == Backoff
  {
    assert fetch(5).status == TooManyRequests;
    assert RetryFrom(fetch, 5, 320) == Outcome(Exhausted, []);
    assert fetch(4).status == TooManyRequests;
    assert RetryFrom(fetch, 4, 160) == Outcome(Exhausted, [160]);
    assert fetch(3).status == TooManyRequests;
    assert RetryFrom(fetch, 3, 80) == Outcome(Exhausted, [80, 160]);
    assert fetch(2).status == TooManyRequests;
    assert RetryFrom(fetch, 2, 40) == Outcome(Exhausted, [40, 80, 160]);
    assert fetch(1).status == TooManyRequests;
    assert RetryFrom(fetch, 1, 20) == Outcome(Exhausted, [20, 40, 80, 160]);
    assert fetch(0).status == TooManyRequests;
  }

  /** The first answer other than 429, if it is among the first six sends,
      ends the loop: its body is returned after the first `k` waits. */
  lemma FirstAnswer<J>(fetch: nat -> Response<J>, k: nat)
    requires k <= 5
    requires forall i :: 0 <= i < k ==> fetch(i).status == TooManyRequests
    requires fetch(k).status != TooManyRequests
    ensures RetryOutcome(fetch).result == Body(fetch(k).body) && RetryOutcome(fetch).waits == Backoff[..k]
  {
    FirstAnswerFrom(fetch, k, 0);
  }

  /** The general step of `FirstAnswer`, by induction on the sends left. */
  lemma {:induction false} FirstAnswerFrom<J>(fetch: nat -> Response<J>, k: nat, attempt: nat)
    requires attempt <= k <= 5
    requires forall i :: attempt <= i < k ==> fetch(i).status == TooManyRequests
    requires fetch(k).status != TooManyRequests
    ensures RetryFrom(fetch, attempt, Wait(attempt)) == Outcome(Body(fetch(k).body), Backoff[attempt..k])
    decreases k - attempt
  {
    if attempt < k {
      assert fetch(attempt).status == TooManyRequests;
      assert Wait(attempt) == Backoff[attempt] <= WaitCap by {
        assert Wait(1) == 20 && Wait(2) == 40 && Wait(3) == 80 && Wait(4) == 160;
      }
      FirstAnswerFrom(fetch, k, attempt + 1);
      assert Backoff[attempt..k] == [Backoff[attempt]] + Backoff[attempt + 1..k];
    }
  }

  /** The `while (true)` loop of `get`: send, and on 429 either give up
      (the wait would exceed 200 s) or wait and send again with the wait
      doubled. */
  method RetryLoop<J>(fetch: nat -> Response<J>) returns (r: Fetched<J>, waits: seq<int>)
    ensures r == RetryOutcome(fetch).result && waits == RetryOutcome(fetch).waits
  {
    var retryAfter := FirstWait;
    var attempt: nat := 0;
    waits := [];
    var response := fetch(attempt);
    while response.status == TooManyRequests
      invariant retryAfter > 0 && response == fetch(attempt)
      invariant RetryOutcome(fetch).result == RetryFrom(fetch, attempt, retryAfter).result
      invariant RetryOutcome(fetch).waits == waits + RetryFrom(fetch, attempt, retryAfter).waits
      decreases if retryAfter > WaitCap then 0 else WaitCap + 1 - retryAfter
    {
      if retryAfter > WaitCap {
        return Exhausted, waits;
      }
      ghost var rest := RetryFrom(fetch, attempt + 1, retryAfter * 2);
      assert RetryFrom(fetch, attempt, retryAfter).waits == [retryAfter] + rest.waits;
      assert waits + ([retryAfter] + rest.waits) == (waits + [retryAfter]) + rest.waits;
      waits := waits + [retryAfter];
      retryAfter := retryAfter * 2;
      attempt := attempt + 1;
      response := fetch(attempt);
    }
    r := Body(response.body);
  }

  /** `!response` for what `get` hands back: `undefined`, `null`, and the
      falsy bodies `false`, `0` and `""`. */
  predicate Falsy<J>(f: Fetched<Json<J>>) {
    f.Rejected? || f.Exhausted? || (f.Body? && ((f.json.Scalar? && !f.json.truthy) || (f.json.Text? && f.json.chars == "")))
  }

  /** Whether `for...of` can walk what `get` handed back: an array or a
      string. */
  predicate Iterable<J>(f: Fetched<Json<J>>) {
    f.Body? && (f.json.List? || f.json.Text?)
  }

  /** The body of a response when it is a JSON array. */
  function ListBody<T>(f: Fetched<Json<T>>): Option<seq<T>> {
    if f.Body? && f.json.List? then Some(f.json.items) else None
  }
}
