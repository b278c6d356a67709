/** The in-memory token bucket of core/rate_limiter.py, over exact real time. */
module RateLimiting {

  datatype Limits = Limits(capacity: nat, refillRate: real)

  // One client's entry in `tokens` and `last_refill`.
  datatype Bucket = Bucket(tokens: real, lastRefill: real)

  datatype Request = Request(client: string, at: real)

  function Min(a: real, b: real): real {
    if a <= b then a else b
  }

  ghost predicate ValidLimits(limits: Limits) {
    limits.refillRate >= 0.0
  }

  function Fresh(limits: Limits, now: real): Bucket {
    Bucket(limits.capacity as real, now)
  }

  function RefillAmount(limits: Limits, bucket: Bucket, now: real): real {
    (now - bucket.lastRefill) * limits.refillRate
  }

  function Refilled(limits: Limits, bucket: Bucket, now: real): Bucket {
    var refill := RefillAmount(limits, bucket, now);
    if refill > 0.0
    then Bucket(Min(limits.capacity as real, bucket.tokens + refill), now)
    else bucket
  }

  // The bucket after a request, and whether the request was admitted.
  function Serve(limits: Limits, bucket: Bucket, now: real): (Bucket, bool) {
    var refilled := Refilled(limits, bucket, now);
    if refilled.tokens >= 1.0
    then (refilled.(tokens := refilled.tokens - 1.0), true)
    else (refilled, false)
  }

  type Buckets = map<string, Bucket>

  function BucketOf(limits: Limits, buckets: Buckets, r: Request): Bucket {
    if r.client in buckets then buckets[r.client] else Fresh(limits, r.at)
  }

  function ServeRequest(limits: Limits, buckets: Buckets, r: Request): (Buckets, bool) {
    var (bucket, admitted) := Serve(limits, BucketOf(limits, buckets, r), r.at);
    (buckets[r.client := bucket], admitted)
  }

  // The two dictionaries read as one.
  ghost function Paired(tokens: map<string, real>, lastRefill: map<string, real>): Buckets
    requires tokens.Keys == lastRefill.Keys
  {
    map client | client in tokens :: Bucket(tokens[client], lastRefill[client])
  }

  lemma PairedUpdate(tokens: map<string, real>, lastRefill: map<string, real>, client: string, b: Bucket)
    requires tokens.Keys == lastRefill.Keys
    ensures var newTokens, newLast := tokens[client := b.tokens], lastRefill[client := b.lastRefill];
            newTokens.Keys == newLast.Keys
            && Paired(newTokens, newLast) == Paired(tokens, lastRefill)[client := b]
  {
  }

  lemma PairedAt(tokens: map<string, real>, lastRefill: map<string, real>, client: string)
    requires tokens.Keys == lastRefill.Keys
    ensures client in Paired(tokens, lastRefill) <==> client in tokens
    ensures client in tokens ==> Paired(tokens, lastRefill)[client] == Bucket(tokens[client], lastRefill[client])
  {
  }

  class RateLimiter {
    const capacity: nat
    const refillRate: real
    var tokens: map<string, real>
    var lastRefill: map<string, real>

    constructor (capacity: nat, refillRate: real)
      ensures this.capacity == capacity && this.refillRate == refillRate
      ensures Valid() && State() == map[]
    {
      this.capacity, this.refillRate := capacity, refillRate;
      tokens, lastRefill := map[], map[];
    }

    ghost predicate Valid()
      reads this
    {
      tokens.Keys == lastRefill.Keys
    }

    function Config(): Limits {
      Limits(capacity, refillRate)
    }

    ghost function State(): Buckets
      requires Valid()
      reads this
    {
      Paired(tokens, lastRefill)
    }

    // One request under the lock, at clock reading `now`.
    method Consume(client: string, now: real) returns (admitted: bool)
      requires Valid()
      modifies this
      ensures Valid()
      ensures (State(), admitted) == ServeRequest(Config(), old(State()), Request(client, now))
    {
      hide Paired;
      ghost var arriving := BucketOf(Config(), State(), Request(client, now));
      PairedAt(tokens, lastRefill, client);
      if client !in lastRefill {
        lastRefill := lastRefill[client := now];
        tokens := tokens[client := capacity as real];
      }
      assert Bucket(tokens[client], lastRefill[client]) == arriving;
      var elapsed := now - lastRefill[client];
      var refillAmount := elapsed * refillRate;
      assert refillAmount == RefillAmount(Config(), arriving, now);
      if refillAmount > 0.0 {
        tokens := tokens[client := Min(capacity as real, tokens[client] + refillAmount)];
        lastRefill := lastRefill[client := now];
      }
      ghost var refilled := Refilled(Config(), arriving, now);
      assert Bucket(tokens[client], lastRefill[client]) == refilled;
      if tokens[client] >= 1.0 {
        tokens := tokens[client := tokens[client] - 1.0];
        admitted := true;
      } else {
        admitted := false;
      }
      assert (Bucket(tokens[client], lastRefill[client]), admitted) == Serve(Config(), arriving, now);
      PairedUpdate(old(tokens), old(lastRefill), client, Bucket(tokens[client], lastRefill[client]));
      assert tokens == old(tokens)[client := tokens[client]];
      assert lastRefill == old(lastRefill)[client := lastRefill[client]];
    }
  }

  /* ---- one client's history ---- */

  ghost predicate Ordered(times: seq<real>) {
    forall i, j :: 0 <= i <= j < |times| ==> times[i] <= times[j]
  }

  // The client's bucket when its j-th request arrives.
  function Arriving(limits: Limits, times: seq<real>, j: nat): Bucket
    requires j < |times|
    decreases j, 0
  {
    if j == 0 then Fresh(limits, times[0]) else Leaving(limits, times, j - 1)
  }

  function Leaving(limits: Limits, times: seq<real>, j: nat): Bucket
    requires j < |times|
    decreases j, 1
  {
    Serve(limits, Arriving(limits, times, j), times[j]).0
  }

  function Admitted(limits: Limits, times: seq<real>, j: nat): bool
    requires j < |times|
  {
    Serve(limits, Arriving(limits, times, j), times[j]).1
  }

  // Tokens the j-th request finds after the refill.
  function Available(limits: Limits, times: seq<real>, j: nat): real
    requires j < |times|
  {
    Refilled(limits, Arriving(limits, times, j), times[j]).tokens
  }

  // Requests admitted among i, i+1, .., j-1.
  function Admissions(limits: Limits, times: seq<real>, i: nat, j: nat): (n: nat)
    requires i <= j <= |times|
    decreases j - i
  {
    if i == j then 0
    else Admissions(limits, times, i, j - 1) + (if Admitted(limits, times, j - 1) then 1 else 0)
  }

  // Refill earned between two consecutive requests.
  function Gain(limits: Limits, times: seq<real>, j: nat): real
    requires 0 < j < |times|
  {
    (times[j] - times[j - 1]) * limits.refillRate
  }

  // Refill earned from request i to request j, summed over the requests in between.
  function Earned(limits: Limits, times: seq<real>, i: nat, j: nat): real
    requires i <= j < |times|
    decreases j - i
  {
    if i == j then 0.0
    else Earned(limits, times, i, j - 1) + Gain(limits, times, j)
  }

  // What the rate earns from time a to time b.
  function Span(rate: real, a: real, b: real): real {
    rate * (b - a)
  }

  lemma {:induction false} EarnedIsSpan(limits: Limits, times: seq<real>, i: nat, j: nat)
    requires i <= j < |times|
    ensures Earned(limits, times, i, j) == Span(limits.refillRate, times[i], times[j])
    decreases j - i
  {
    hide Span, Gain;
    if i == j {
      EmptySpan(limits.refillRate, times[i]);
    } else {
      EarnedIsSpan(limits, times, i, j - 1);
      SpanStep(limits, times, i, j);
    }
  }

  lemma EmptySpan(rate: real, a: real)
    ensures Span(rate, a, a) == 0.0
  {
  }

  lemma SpanStep(limits: Limits, times: seq<real>, i: nat, j: nat)
    requires i < j < |times|
    ensures Span(limits.refillRate, times[i], times[j - 1]) + Gain(limits, times, j)
            == Span(limits.refillRate, times[i], times[j])
  {
    Distribute(limits.refillRate, times[i], times[j - 1], times[j]);
  }

  lemma Distribute(rate: real, a: real, b: real, c: real)
    ensures rate * (b - a) + (c - b) * rate == rate * (c - a)
  {
  }

  lemma EarnedIsRateTimesSpan(limits: Limits, times: seq<real>, i: nat, j: nat)
    requires i <= j < |times|
    ensures Earned(limits, times, i, j) == limits.refillRate * (times[j] - times[i])
  {
    EarnedIsSpan(limits, times, i, j);
  }

  // What a window opened at request i still allows when request j arrives.
  function Allowance(limits: Limits, times: seq<real>, i: nat, j: nat): real
    requires i <= j < |times|
  {
    limits.capacity as real + Earned(limits, times, i, j) - Admissions(limits, times, i, j) as real
  }

  // A bucket that is current at time t, or that never refills, refills by rate * elapsed.
  lemma RefilledLevel(limits: Limits, bucket: Bucket, t: real, now: real, gain: real)
    requires limits.refillRate >= 0.0 && t <= now
    requires bucket.tokens <= limits.capacity as real
    requires limits.refillRate == 0.0 || bucket.lastRefill == t
    requires gain == (now - t) * limits.refillRate
    ensures Refilled(limits, bucket, now).tokens == Min(limits.capacity as real, bucket.tokens + gain)
    ensures limits.refillRate > 0.0 ==> Refilled(limits, bucket, now).lastRefill == now
  {
    if limits.refillRate == 0.0 {
      assert (now - bucket.lastRefill) * limits.refillRate == 0.0;
      assert (now - t) * limits.refillRate == 0.0;
    } else if t < now {
      assert (now - t) * limits.refillRate > 0.0;
    } else {
      assert (now - t) * limits.refillRate == 0.0;
    }
  }

  lemma LevelNeverExceedsCapacity(limits: Limits, bucket: Bucket, now: real)
    requires bucket.tokens <= limits.capacity as real
    ensures Refilled(limits, bucket, now).tokens <= limits.capacity as real
    ensures Serve(limits, bucket, now).0.tokens <= limits.capacity as real
  {
  }

  lemma {:induction false} LevelIsBounded(limits: Limits, times: seq<real>, j: nat)
    requires j < |times|
    ensures Arriving(limits, times, j).tokens <= limits.capacity as real
    ensures Leaving(limits, times, j).tokens <= limits.capacity as real
    ensures Available(limits, times, j) <= limits.capacity as real
  {
    if j > 0 {
      LevelIsBounded(limits, times, j - 1);
    }
    LevelNeverExceedsCapacity(limits, Arriving(limits, times, j), times[j]);
  }

  // `last_refill` is the latest request's time, unless refills never happen.
  lemma {:induction false} BucketIsCurrent(limits: Limits, times: seq<real>, j: nat)
    requires ValidLimits(limits) && Ordered(times) && j < |times|
    ensures limits.refillRate == 0.0 || Leaving(limits, times, j).lastRefill == times[j]
  {
    var arriving := Arriving(limits, times, j);
    LevelIsBounded(limits, times, j);
    if j == 0 {
      RefilledLevel(limits, arriving, times[0], times[0], 0.0);
    } else {
      BucketIsCurrent(limits, times, j - 1);
      RefilledLevel(limits, arriving, times[j - 1], times[j], Gain(limits, times, j));
    }
  }

  function Spent(limits: Limits, times: seq<real>, j: nat): real
    requires j < |times|
  {
    if Admitted(limits, times, j) then 1.0 else 0.0
  }

  lemma NextAvailable(limits: Limits, times: seq<real>, j: nat)
    requires ValidLimits(limits) && Ordered(times) && 0 < j < |times|
    ensures Available(limits, times, j) ==
            Min(limits.capacity as real,
                Available(limits, times, j - 1) - Spent(limits, times, j - 1)
                + Gain(limits, times, j))
  {
    var left, gain := Leaving(limits, times, j - 1), Gain(limits, times, j);
    assert left.tokens <= limits.capacity as real by {
      LevelIsBounded(limits, times, j - 1);
    }
    assert limits.refillRate == 0.0 || left.lastRefill == times[j - 1] by {
      BucketIsCurrent(limits, times, j - 1);
    }
    RefilledLevel(limits, left, times[j - 1], times[j], gain);
    LeavingTokens(limits, times, j - 1);
  }

  lemma LeavingTokens(limits: Limits, times: seq<real>, j: nat)
    requires j < |times|
    ensures Leaving(limits, times, j).tokens == Available(limits, times, j) - Spent(limits, times, j)
  {
  }

  lemma AllowanceStep(limits: Limits, times: seq<real>, i: nat, j: nat)
    requires i < j < |times|
    ensures Allowance(limits, times, i, j) ==
            Allowance(limits, times, i, j - 1) - Spent(limits, times, j - 1)
            + Gain(limits, times, j)
  {
  }

  ghost predicate BelowEveryWindow(limits: Limits, times: seq<real>, j: nat, level: real)
    requires j < |times|
  {
    forall i: nat :: i <= j ==> level <= Allowance(limits, times, i, j)
  }

  lemma NextBelowEveryWindow(limits: Limits, times: seq<real>, j: nat, level: real, next: real)
    requires 0 < j < |times| && BelowEveryWindow(limits, times, j - 1, level)
    requires next == Min(limits.capacity as real,
                         level - Spent(limits, times, j - 1) + Gain(limits, times, j))
    ensures BelowEveryWindow(limits, times, j, next)
  {
    forall i: nat | i <= j
      ensures next <= Allowance(limits, times, i, j)
    {
      if i < j {
        AllowanceStep(limits, times, i, j);
        assert level <= Allowance(limits, times, i, j - 1);
      } else {
        assert Allowance(limits, times, j, j) == limits.capacity as real;
      }
    }
  }

  // The level is the tightest of all window allowances: below each of them, and equal to one.
  lemma {:induction false} AvailableIsTightestWindow(limits: Limits, times: seq<real>, j: nat)
    returns (tightest: nat)
    requires ValidLimits(limits) && Ordered(times) && j < |times|
    ensures BelowEveryWindow(limits, times, j, Available(limits, times, j))
    ensures tightest <= j && Available(limits, times, j) == Allowance(limits, times, tightest, j)
  {
    if j == 0 {
      RefilledLevel(limits, Fresh(limits, times[0]), times[0], times[0], 0.0);
      assert Allowance(limits, times, 0, 0) == limits.capacity as real;
      tightest := 0;
    } else {
      var before := AvailableIsTightestWindow(limits, times, j - 1);
      var level, next := Available(limits, times, j - 1), Available(limits, times, j);
      NextAvailable(limits, times, j);
      NextBelowEveryWindow(limits, times, j, level, next);
      AllowanceStep(limits, times, before, j);
      if next == limits.capacity as real {
        tightest := j;
        assert Allowance(limits, times, j, j) == limits.capacity as real;
      } else {
        tightest := before;
      }
    }
  }

  // Admitting request j keeps the window opened at request i within capacity + rate * length.
  ghost predicate FitsWindow(limits: Limits, times: seq<real>, i: nat, j: nat)
    requires i <= j < |times|
  {
    Admissions(limits, times, i, j) as real + 1.0
    <= limits.capacity as real + limits.refillRate * (times[j] - times[i])
  }

  ghost predicate FitsEveryWindow(limits: Limits, times: seq<real>, j: nat)
    requires j < |times|
  {
    forall i: nat :: i <= j ==> FitsWindow(limits, times, i, j)
  }

  lemma FitsWindowIsAllowance(limits: Limits, times: seq<real>, i: nat, j: nat)
    requires i <= j < |times|
    ensures FitsWindow(limits, times, i, j) <==> Allowance(limits, times, i, j) >= 1.0
  {
    EarnedIsRateTimesSpan(limits, times, i, j);
  }

  // A request is admitted exactly when it fits every window that an earlier request opened; it is
  // refused only if some window would overflow.
  lemma AdmittedExactlyWithinEveryWindow(limits: Limits, times: seq<real>, j: nat)
    requires ValidLimits(limits) && Ordered(times) && j < |times|
    ensures Admitted(limits, times, j) <==> FitsEveryWindow(limits, times, j)
  {
    var tightest := AvailableIsTightestWindow(limits, times, j);
    assert BelowEveryWindow(limits, times, j, Available(limits, times, j));
    assert Admitted(limits, times, j) <==> Available(limits, times, j) >= 1.0;
    FitsWindowIsAllowance(limits, times, tightest, j);
    forall i: nat | i <= j && Admitted(limits, times, j)
      ensures FitsWindow(limits, times, i, j)
    {
      FitsWindowIsAllowance(limits, times, i, j);
    }
  }

  lemma EarnedGrows(limits: Limits, times: seq<real>, i: nat, j: nat)
    requires ValidLimits(limits) && Ordered(times) && i < j < |times|
    ensures Earned(limits, times, i, j - 1) <= Earned(limits, times, i, j)
  {
    assert times[j] - times[j - 1] >= 0.0;
  }

  // Earned refill plus capacity covers the admissions of every window.
  lemma {:induction false} WindowIsCovered(limits: Limits, times: seq<real>, i: nat, j: nat)
    requires ValidLimits(limits) && Ordered(times) && i <= j < |times|
    ensures Admissions(limits, times, i, j + 1) as real <= limits.capacity as real + Earned(limits, times, i, j)
    decreases j - i
  {
    if Admitted(limits, times, j) {
      var _ := AvailableIsTightestWindow(limits, times, j);
      assert Allowance(limits, times, i, j) >= Available(limits, times, j);
    } else if i < j {
      WindowIsCovered(limits, times, i, j - 1);
      EarnedGrows(limits, times, i, j);
    } else {
      assert Admissions(limits, times, i, i) == 0;
    }
  }

  // Over any window of requests i..j, admissions never exceed capacity + rate * length.
  lemma WindowBound(limits: Limits, times: seq<real>, i: nat, j: nat)
    requires ValidLimits(limits) && Ordered(times) && i <= j < |times|
    ensures Admissions(limits, times, i, j + 1) as real
            <= limits.capacity as real + limits.refillRate * (times[j] - times[i])
  {
    WindowIsCovered(limits, times, i, j);
    EarnedIsRateTimesSpan(limits, times, i, j);
  }

  /* ---- many clients sharing one limiter ---- */

  function Served(limits: Limits, requests: seq<Request>): Buckets {
    if requests == [] then map[]
    else
      var last := |requests| - 1;
      ServeRequest(limits, Served(limits, requests[..last]), requests[last]).0
  }

  // Whether the last of the requests is admitted.
  function LastAdmitted(limits: Limits, requests: seq<Request>): bool
    requires requests != []
  {
    var last := |requests| - 1;
    ServeRequest(limits, Served(limits, requests[..last]), requests[last]).1
  }

  function TimesOf(client: string, requests: seq<Request>): (times: seq<real>) {
    if requests == [] then []
    else
      var last := |requests| - 1;
      TimesOf(client, requests[..last])
      + (if requests[last].client == client then [requests[last].at] else [])
  }

  lemma {:induction false} HistoryIsPrefixClosed(limits: Limits, times: seq<real>, more: seq<real>, j: nat)
    requires j < |times|
    ensures Arriving(limits, times + more, j) == Arriving(limits, times, j)
    ensures Leaving(limits, times + more, j) == Leaving(limits, times, j)
  {
    if j > 0 {
      HistoryIsPrefixClosed(limits, times, more, j - 1);
    }
  }

  // A client's bucket depends on that client's own requests only.
  lemma {:induction false} OthersChangeNothing(limits: Limits, client: string, requests: seq<Request>)
    ensures var times := TimesOf(client, requests);
            && (client in Served(limits, requests) <==> times != [])
            && (times != [] ==> Served(limits, requests)[client] == Leaving(limits, times, |times| - 1))
  {
    if requests != [] {
      var last := requests[|requests| - 1];
      var earlier := requests[..|requests| - 1];
      OthersChangeNothing(limits, client, earlier);
      if last.client == client {
        OwnRequestExtends(limits, client, earlier, last);
      } else {
        assert TimesOf(client, requests) == TimesOf(client, earlier);
      }
    }
  }

  lemma OwnRequestExtends(limits: Limits, client: string, earlier: seq<Request>, r: Request)
    requires r.client == client
    requires var before := TimesOf(client, earlier);
             && (client in Served(limits, earlier) <==> before != [])
             && (before != [] ==> Served(limits, earlier)[client] == Leaving(limits, before, |before| - 1))
    ensures var times := TimesOf(client, earlier) + [r.at];
            BucketOf(limits, Served(limits, earlier), r) == Arriving(limits, times, |times| - 1)
  {
    var before := TimesOf(client, earlier);
    if before != [] {
      HistoryIsPrefixClosed(limits, before, [r.at], |before| - 1);
    }
  }

  // So the decision on a request is the one its own client's history alone would give.
  lemma DecisionIsPerClient(limits: Limits, requests: seq<Request>)
    requires requests != []
    ensures var times := TimesOf(requests[|requests| - 1].client, requests);
            times != [] && LastAdmitted(limits, requests) == Admitted(limits, times, |times| - 1)
  {
    var last := requests[|requests| - 1];
    var earlier := requests[..|requests| - 1];
    OthersChangeNothing(limits, last.client, earlier);
    OwnRequestExtends(limits, last.client, earlier, last);
  }

  ghost predicate InOrder(requests: seq<Request>) {
    forall i, j :: 0 <= i <= j < |requests| ==> requests[i].at <= requests[j].at
  }

  lemma {:induction false} TimesAreOrdered(client: string, requests: seq<Request>)
    requires InOrder(requests)
    ensures var times := TimesOf(client, requests);
            Ordered(times) && forall k :: 0 <= k < |times| ==>
              requests != [] && times[k] <= requests[|requests| - 1].at
  {
    if requests != [] {
      TimesAreOrdered(client, requests[..|requests| - 1]);
    }
  }

  // The shared limiter, over any mix of clients: the latest request is admitted exactly when it
  // fits every window opened by its own client.
  lemma SharedLimiterIsExact(limits: Limits, requests: seq<Request>)
    requires ValidLimits(limits) && requests != [] && InOrder(requests)
    ensures var times := TimesOf(requests[|requests| - 1].client, requests);
            times != [] && (LastAdmitted(limits, requests) <==> FitsEveryWindow(limits, times, |times| - 1))
  {
    var times := TimesOf(requests[|requests| - 1].client, requests);
    TimesAreOrdered(requests[|requests| - 1].client, requests);
    DecisionIsPerClient(limits, requests);
    AdmittedExactlyWithinEveryWindow(limits, times, |times| - 1);
  }
}
