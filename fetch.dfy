/** The retry policy of the page fetcher: at most `maxRetries` attempts, a
    politeness pause before each, exponential backoff between failures,
    and absence instead of an exception when every attempt fails. */
module Fetch {
  import opened Jobs

  /** What one GET attempt gives: the parsed page, or a request exception
      (connection error, timeout, or an HTTP error status). */
  datatype Response<P> = Ok(page: P) | Failed

  /** A recorded sleep: the fixed 1-second politeness delay before a request,
      or an exponential backoff of the given number of seconds. */
  datatype Pause = Politeness | Backoff(seconds: nat)

  /** What a fetch returns, the sleeps it made in order, and how many requests it sent. */
  datatype FetchRun<P> = FetchRun(result: Option<P>, pauses: seq<Pause>, requests: nat)

  /** The attempt limit every caller of the fetcher uses (the default argument). */
  const MAX_RETRIES: int := 3

  function Pow2(n: nat): (r: nat)
    ensures r >= 1
  {
    if n == 0 then 1 else 2 * Pow2(n - 1)
  }

  /** The fetch from attempt number `attempt` on, when attempt `i` meets `responses[i]`. */
  function Retry<P>(responses: seq<Response<P>>, attempt: nat, maxRetries: int): FetchRun<P>
    requires maxRetries <= |responses|
    decreases maxRetries - attempt
  {
    if maxRetries <= attempt then
      FetchRun(None, [], 0)
    else
      match responses[attempt]
      case Ok(page) => FetchRun(Some(page), [Politeness], 1)
      case Failed =>
        if attempt < maxRetries - 1 then
          var rest := Retry(responses, attempt + 1, maxRetries);
          FetchRun(rest.result, [Politeness, Backoff(Pow2(attempt))] + rest.pauses, 1 + rest.requests)
        else
          FetchRun(None, [Politeness], 1)
  }

  /** The backoff delays among the pauses, in order. */
  function Backoffs(pauses: seq<Pause>): seq<nat>
  {
    if pauses == [] then []
    else (if pauses[0].Backoff? then [pauses[0].seconds] else []) + Backoffs(pauses[1..])
  }

  /** The number of politeness delays among the pauses. */
  function PolitenessCount(pauses: seq<Pause>): nat
  {
    if pauses == [] then 0
    else (if pauses[0].Politeness? then 1 else 0) + PolitenessCount(pauses[1..])
  }

  /** `count` doubling delays starting at `2^from`. */
  function Doublings(from: nat, count: nat): seq<nat>
    decreases count
  {
    if count == 0 then [] else [Pow2(from)] + Doublings(from + 1, count - 1)
  }

  /** The sleep log of `count` failed attempts from attempt `from`: each a politeness
      delay followed by its backoff of `2^attempt` seconds. */
  function FailedAttempts(from: nat, count: nat): seq<Pause>
    decreases count
  {
    if count == 0 then [] else [Politeness, Backoff(Pow2(from))] + FailedAttempts(from + 1, count - 1)
  }

  lemma {:induction false} DoublingsAt(from: nat, count: nat, i: nat)
    requires i < count
    ensures |Doublings(from, count)| == count
    ensures Doublings(from, count)[i] == Pow2(from + i)
    decreases count
  {
    if i == 0 {
      DoublingsLength(from + 1, count - 1);
    } else {
      DoublingsAt(from + 1, count - 1, i - 1);
    }
  }

  lemma {:induction false} DoublingsLength(from: nat, count: nat)
    ensures |Doublings(from, count)| == count
    decreases count
  {
    if count > 0 {
      DoublingsLength(from + 1, count - 1);
    }
  }

  lemma {:induction false} BackoffsAppend(a: seq<Pause>, b: seq<Pause>)
    ensures Backoffs(a + b) == Backoffs(a) + Backoffs(b)
    decreases |a|
  {
    if a == [] {
      assert a + b == b;
    } else {
      assert (a + b)[0] == a[0] && (a + b)[1..] == a[1..] + b;
      BackoffsAppend(a[1..], b);
    }
  }

  lemma {:induction false} PolitenessCountAppend(a: seq<Pause>, b: seq<Pause>)
    ensures PolitenessCount(a + b) == PolitenessCount(a) + PolitenessCount(b)
    decreases |a|
  {
    if a == [] {
      assert a + b == b;
    } else {
      assert (a + b)[1..] == a[1..] + b;
      PolitenessCountAppend(a[1..], b);
    }
  }

  /** Every request is preceded by exactly one politeness delay. */
  lemma {:induction false} RetryPolitenessPerRequest<P>(responses: seq<Response<P>>, attempt: nat, maxRetries: int)
    requires maxRetries <= |responses|
    ensures PolitenessCount(Retry(responses, attempt, maxRetries).pauses) == Retry(responses, attempt, maxRetries).requests
    decreases maxRetries - attempt
  {
    if attempt < maxRetries && responses[attempt].Failed? && attempt < maxRetries - 1 {
      var rest := Retry(responses, attempt + 1, maxRetries);
      RetryPolitenessPerRequest(responses, attempt + 1, maxRetries);
      PolitenessCountAppend([Politeness, Backoff(Pow2(attempt))], rest.pauses);
    }
  }

  /** The fetch succeeds exactly when some allowed attempt succeeds; it then returns the page
      of the last request it made, every earlier request having failed; and it never makes
      more than the remaining number of attempts. */
  lemma {:induction false} RetryResult<P>(responses: seq<Response<P>>, attempt: nat, maxRetries: int)
    requires maxRetries <= |responses|
    ensures var run := Retry(responses, attempt, maxRetries);
      && run.requests <= (if maxRetries <= attempt then 0 else maxRetries - attempt)
      && (run.result.Some? <==> exists i :: attempt <= i < maxRetries && responses[i].Ok?)
      && (run.result.Some? ==>
            && run.requests >= 1
            && responses[attempt + run.requests - 1] == Ok(run.result.value)
            && forall i :: attempt <= i < attempt + run.requests - 1 ==> responses[i].Failed?)
    decreases maxRetries - attempt
  {
    if attempt < maxRetries && responses[attempt].Failed? {
      if attempt < maxRetries - 1 {
        RetryResult(responses, attempt + 1, maxRetries);
      }
    }
  }

  /** The first successful attempt ends the fetch with its page, after one request per
      attempt so far and a backoff of `2^i` seconds after each earlier failure `i`. */
  lemma {:induction false} RetryFirstSuccess<P>(responses: seq<Response<P>>, attempt: nat, maxRetries: int, k: nat)
    requires maxRetries <= |responses|
    requires attempt <= k < maxRetries && responses[k].Ok?
    requires forall i :: attempt <= i < k ==> responses[i].Failed?
    ensures var run := Retry(responses, attempt, maxRetries);
      && run.result == Some(responses[k].page)
      && run.requests == k - attempt + 1
      && Backoffs(run.pauses) == Doublings(attempt, k - attempt)
    decreases k - attempt
  {
    if attempt < k {
      var rest := Retry(responses, attempt + 1, maxRetries);
      RetryFirstSuccess(responses, attempt + 1, maxRetries, k);
      BackoffsAppend([Politeness, Backoff(Pow2(attempt))], rest.pauses);
    }
  }

  /** When every allowed attempt fails: absence, one request per attempt, and a backoff
      after every failure but the last, doubling from `2^attempt`. */
  lemma {:induction false} RetryAllFail<P>(responses: seq<Response<P>>, attempt: nat, maxRetries: int)
    requires maxRetries <= |responses|
    requires attempt < maxRetries
    requires forall i :: attempt <= i < maxRetries ==> responses[i].Failed?
    ensures var run := Retry(responses, attempt, maxRetries);
      && run.result == None
      && run.requests == maxRetries - attempt
      && Backoffs(run.pauses) == Doublings(attempt, maxRetries - 1 - attempt)
    decreases maxRetries - attempt
  {
    if attempt < maxRetries - 1 {
      var rest := Retry(responses, attempt + 1, maxRetries);
      RetryAllFail(responses, attempt + 1, maxRetries);
      BackoffsAppend([Politeness, Backoff(Pow2(attempt))], rest.pauses);
    }
  }

  /** The sleep log up to the first success: a politeness delay and a `2^i`-second backoff
      for each earlier failed attempt `i`, then the politeness delay of the successful one. */
  lemma {:induction false} RetryFirstSuccessLog<P>(responses: seq<Response<P>>, attempt: nat, maxRetries: int, k: nat)
    requires maxRetries <= |responses|
    requires attempt <= k < maxRetries && responses[k].Ok?
    requires forall i :: attempt <= i < k ==> responses[i].Failed?
    ensures Retry(responses, attempt, maxRetries).pauses == FailedAttempts(attempt, k - attempt) + [Politeness]
    decreases k - attempt
  {
    if attempt < k {
      RetryFirstSuccessLog(responses, attempt + 1, maxRetries, k);
    }
  }

  /** The sleep log when every remaining attempt fails: a politeness delay and a `2^i`-second
      backoff for each failure but the last, then the last attempt's politeness delay. */
  lemma {:induction false} RetryAllFailLog<P>(responses: seq<Response<P>>, attempt: nat, maxRetries: int)
    requires maxRetries <= |responses|
    requires attempt < maxRetries
    requires forall i :: attempt <= i < maxRetries ==> responses[i].Failed?
    ensures Retry(responses, attempt, maxRetries).pauses == FailedAttempts(attempt, maxRetries - 1 - attempt) + [Politeness]
    decreases maxRetries - attempt
  {
    if attempt < maxRetries - 1 {
      RetryAllFailLog(responses, attempt + 1, maxRetries);
    }
  }

  /** The whole fetch when every attempt fails: `None`, `maxRetries` requests, and exactly
      `maxRetries - 1` backoffs of 1, 2, 4, ... seconds. */
  lemma FetchAllFail<P>(responses: seq<Response<P>>, maxRetries: int)
    requires 1 <= maxRetries <= |responses|
    requires forall i :: 0 <= i < maxRetries ==> responses[i].Failed?
    ensures var run := Retry(responses, 0, maxRetries);
      && run.result == None
      && run.requests == maxRetries
      && run.pauses == FailedAttempts(0, maxRetries - 1) + [Politeness]
      && |Backoffs(run.pauses)| == maxRetries - 1
      && forall i :: 0 <= i < maxRetries - 1 ==> Backoffs(run.pauses)[i] == Pow2(i)
  {
    RetryAllFail(responses, 0, maxRetries);
    RetryAllFailLog(responses, 0, maxRetries);
    DoublingsLength(0, maxRetries - 1);
    forall i | 0 <= i < maxRetries - 1 ensures Doublings(0, maxRetries - 1)[i] == Pow2(i) {
      DoublingsAt(0, maxRetries - 1, i);
    }
  }

  /** With no attempts allowed the fetcher sends nothing, sleeps not at all, and returns `None`. */
  lemma FetchNoAttempts<P>(responses: seq<Response<P>>, maxRetries: int)
    requires maxRetries <= 0
    ensures Retry(responses, 0, maxRetries) == FetchRun(None, [], 0)
  {
  }

  /** Three failures against the default limit of three: two backoffs, of 1 and 2 seconds. */
  lemma ThreeFailures<P>()
    ensures var run := Retry<P>([Failed, Failed, Failed], 0, MAX_RETRIES);
      && run.result == None
      && run.pauses == [Politeness, Backoff(1), Politeness, Backoff(2), Politeness]
      && Backoffs(run.pauses) == [1, 2]
  {
    var r: seq<Response<P>> := [Failed, Failed, Failed];
    assert Retry(r, 2, 3) == FetchRun(None, [Politeness], 1);
    assert Retry(r, 1, 3).pauses == [Politeness, Backoff(2), Politeness];
    var ps := [Politeness, Backoff(1), Politeness, Backoff(2), Politeness];
    assert ps[1..][1..][1..][1..][1..] == [];
  }
}
