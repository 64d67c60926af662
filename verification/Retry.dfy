/** The retry middleware (pkg/upstream/transport/retry.go). Delays are nanoseconds. */
module Retries {
  import opened Text
  import opened Arith
  import opened CircuitBreakers

  const DEFAULT_MAX_ATTEMPTS := 3
  const DEFAULT_BASE_DELAY := 500_000_000
  const DEFAULT_MAX_DELAY := 30_000_000_000

  datatype Options = Options(maxAttempts: int, baseDelay: int, maxDelay: int)

  function WithDefaults(o: Options): (r: Options)
    ensures r.maxAttempts >= 1 && r.baseDelay >= 1 && r.maxDelay >= 1
    ensures r.maxAttempts == if o.maxAttempts >= 1 then o.maxAttempts else 3
    ensures r.baseDelay == if o.baseDelay >= 1 then o.baseDelay else SECOND / 2
    ensures r.maxDelay == if o.maxDelay >= 1 then o.maxDelay else 30 * SECOND
  {
    Options(if o.maxAttempts <= 0 then DEFAULT_MAX_ATTEMPTS else o.maxAttempts,
            if o.baseDelay <= 0 then DEFAULT_BASE_DELAY else o.baseDelay,
            if o.maxDelay <= 0 then DEFAULT_MAX_DELAY else o.maxDelay)
  }

  predicate IsRetryable(code: int) {
    code == 429 || code == 500 || code == 502 || code == 503 || code == 504
  }

  /** Worth another attempt: an error that is not a credential rejection, or a retryable status. */
  predicate Transient(r: Reply): (b: bool)
    ensures b <==> r in {Failed(false), Response(429), Response(500), Response(502), Response(503), Response(504)}
  {
    match r
    case Failed(authFailed) => !authFailed
    case Response(code) => IsRetryable(code)
  }

  function Wrap64(n: int): int {
    (n + 0x8000_0000_0000_0000) % 0x1_0000_0000_0000_0000 - 0x8000_0000_0000_0000
  }

  function Base(attempt: nat, o: Options): real
    requires attempt >= 1
  {
    o.baseDelay as real * Pow2(attempt - 1) as real
  }

  function Jittered(base: real, jitter: real): (d: int)
    ensures d == (base * (1.0 + jitter)).Floor
  {
    assert base * (1.0 + jitter) == base + base * jitter;
    (base + base * jitter).Floor
  }

  /** calcDelay. `retryAfter` is the header's value as a decimal, if it parses as one; `jitter` is the random
      fraction in [-1/4, 1/4). */
  function Delay(attempt: nat, last: Option<Reply>, retryAfter: Option<int>, jitter: real, o: Options): int
    requires attempt >= 1
  {
    if last.Some? && last.value == Response(429) && retryAfter.Some? && retryAfter.value > 0 then
      var d := Wrap64(retryAfter.value * SECOND);
      if d < o.maxDelay then d else o.maxDelay
    else
      var d := Jittered(Base(attempt, o), jitter);
      if d > o.maxDelay then o.maxDelay else d
  }

  /** The reply is a 429 with a positive Retry-After. */
  predicate AsksToWait(last: Option<Reply>, retryAfter: Option<int>) {
    last == Some(Response(429)) && retryAfter.Some? && retryAfter.value > 0
  }

  /** d is baseDelay, doubled per earlier retry, give or take a quarter, and cut off at the cap. */
  predicate NearDoubling(d: int, attempt: nat, o: Options)
    requires attempt >= 1
  {
    var b := o.baseDelay as real * Pow2(attempt - 1) as real;
    Min((b * 0.75).Floor, o.maxDelay) <= d <= Min((b * 1.25).Floor, o.maxDelay)
  }

  /** What the delay is: as many seconds as a 429 asks for, if they fit 64 bits, up to the cap; otherwise doubling, with
      a jitter of at most a quarter. */
  lemma DelayIs(attempt: nat, last: Option<Reply>, retryAfter: Option<int>, jitter: real, o: Options)
    requires attempt >= 1 && o.baseDelay >= 0 && -0.25 <= jitter <= 0.25
    ensures var d := Delay(attempt, last, retryAfter, jitter, o);
            && (AsksToWait(last, retryAfter) && retryAfter.value * SECOND < 0x8000_0000_0000_0000 ==>
                  d == Min(retryAfter.value * SECOND, o.maxDelay))
            && (!AsksToWait(last, retryAfter) ==> NearDoubling(d, attempt, o))
  {
    if AsksToWait(last, retryAfter) {
      if retryAfter.value * SECOND < 0x8000_0000_0000_0000 {
        AskedDelay(attempt, last, retryAfter, jitter, o);
      }
    } else {
      DoubledDelay(attempt, last, retryAfter, jitter, o);
    }
  }

  lemma AskedDelay(attempt: nat, last: Option<Reply>, retryAfter: Option<int>, jitter: real, o: Options)
    requires attempt >= 1 && AsksToWait(last, retryAfter) && retryAfter.value * SECOND < 0x8000_0000_0000_0000
    ensures Delay(attempt, last, retryAfter, jitter, o) == Min(retryAfter.value * SECOND, o.maxDelay)
  {
    WrapSmall(retryAfter.value * SECOND);
  }

  lemma DoubledDelay(attempt: nat, last: Option<Reply>, retryAfter: Option<int>, jitter: real, o: Options)
    requires attempt >= 1 && o.baseDelay >= 0 && -0.25 <= jitter <= 0.25 && !AsksToWait(last, retryAfter)
    ensures NearDoubling(Delay(attempt, last, retryAfter, jitter, o), attempt, o)
  {
    CappedWithin(Base(attempt, o), jitter, o.maxDelay, Delay(attempt, last, retryAfter, jitter, o));
  }

  lemma WrapSmall(n: int)
    requires 0 <= n < 0x8000_0000_0000_0000
    ensures Wrap64(n) == n
  {
  }

  lemma ScaledWithin(b: real, jitter: real)
    requires b >= 0.0 && -0.25 <= jitter <= 0.25
    ensures (b * 0.75).Floor <= Jittered(b, jitter) <= (b * 1.25).Floor
  {
    assert b * (jitter + 0.25) >= 0.0 && b * (0.25 - jitter) >= 0.0;
    assert b * 0.75 <= b + b * jitter <= b * 1.25;
  }

  lemma CappedWithin(b: real, jitter: real, cap: int, d: int)
    requires b >= 0.0 && -0.25 <= jitter <= 0.25 && d == Min(Jittered(b, jitter), cap)
    ensures Min((b * 0.75).Floor, cap) <= d <= Min((b * 1.25).Floor, cap)
  {
    ScaledWithin(b, jitter);
  }

  lemma DelayIsCapped(attempt: nat, last: Option<Reply>, retryAfter: Option<int>, jitter: real, o: Options)
    requires attempt >= 1
    ensures Delay(attempt, last, retryAfter, jitter, o) <= o.maxDelay
  {
  }

  /** A Retry-After delay can come out negative: exactly when its nanoseconds, as 64 bits, have the top bit set. */
  lemma RetryAfterNonNegativeIff(attempt: nat, seconds: int, jitter: real, o: Options)
    requires attempt >= 1 && 0 < seconds < 0x8000_0000_0000_0000 && o.maxDelay >= 1
    ensures Delay(attempt, Some(Response(429)), Some(seconds), jitter, o) >= 0
            <==> (seconds * SECOND) % 0x1_0000_0000_0000_0000 < 0x8000_0000_0000_0000
  {
    var n := seconds * SECOND;
    WrapSign(n);
  }

  lemma WrapSign(n: int)
    ensures Wrap64(n) >= 0 <==> n % 0x1_0000_0000_0000_0000 < 0x8000_0000_0000_0000
  {
  }

  /** About 292 years of Retry-After is asked of the server as no wait at all. */
  lemma RetryAfterCanWrap()
    ensures Delay(1, Some(Response(429)), Some(9223372037), 0.0, Options(3, 1, 1)) < 0
  {
  }

  // ---- the loop ----

  datatype Body = NoBody | Replayable | OneShot

  /** What the outside does around attempt n: next's reply, its Retry-After, the jitter before the attempt, whether the
      context ends during that wait, and whether GetBody fails before it. */
  datatype World = World(next: nat -> Reply, retryAfter: nat -> Option<int>, jitter: nat -> real,
                         canceled: nat -> bool, bodyFails: nat -> bool)

  datatype Event = Sent(attempt: nat) | Drained(attempt: nat) | Slept(duration: int)

  /** What RoundTrip returns: the response of one attempt, or an error. */
  datatype Outcome = Responded(attempt: nat) | NextError(attempt: nat) | CanceledWait | BodyError

  /** The attempt RoundTrip would stop at if nothing outside interfered: the first that is not transient, or
      the last. */
  function LastAttempt(w: World, max: nat, n: nat): nat
    requires n < max
    decreases max - n
  {
    if n + 1 == max || !Transient(w.next(n)) then n else LastAttempt(w, max, n + 1)
  }

  function Sends(log: seq<Event>): seq<nat> {
    if log == [] then []
    else Sends(log[..|log| - 1]) + if log[|log| - 1].Sent? then [log[|log| - 1].attempt] else []
  }

  function Drains(log: seq<Event>): seq<nat> {
    if log == [] then []
    else Drains(log[..|log| - 1]) + if log[|log| - 1].Drained? then [log[|log| - 1].attempt] else []
  }

  function Sleep(log: seq<Event>): int {
    if log == [] then 0
    else Sleep(log[..|log| - 1]) + if log[|log| - 1].Slept? then log[|log| - 1].duration else 0
  }

  /** The waits asked for, in order. */
  function Naps(log: seq<Event>): seq<int> {
    if log == [] then []
    else Naps(log[..|log| - 1]) + if log[|log| - 1].Slept? then [log[|log| - 1].duration] else []
  }

  lemma LogStep(log: seq<Event>, e: Event)
    ensures Naps(log + [e]) == if e.Slept? then Naps(log) + [e.duration] else Naps(log)
    ensures Sends(log + [e]) == if e.Sent? then Sends(log) + [e.attempt] else Sends(log)
    ensures Drains(log + [e]) == if e.Drained? then Drains(log) + [e.attempt] else Drains(log)
    ensures Sleep(log + [e]) == if e.Slept? then Sleep(log) + e.duration else Sleep(log)
  {
  }

  /** The first n attempts, in order. */
  function Upto(n: nat): seq<nat> {
    seq(n, i => i)
  }

  /** The attempts below n that got a response, in order. */
  function Responses(w: World, n: nat): seq<nat> {
    if n == 0 then [] else Responses(w, n - 1) + if w.next(n - 1).Response? then [n - 1] else []
  }

  lemma {:induction false} LastAttemptIs(w: World, max: nat, n: nat, from: nat)
    requires from <= n < max && forall m :: from <= m < n ==> Transient(w.next(m))
    requires n + 1 == max || !Transient(w.next(n))
    ensures LastAttempt(w, max, from) == n
    decreases n - from
  {
    if from < n { LastAttemptIs(w, max, n, from + 1); }
  }

  function Times(n: nat, d: int): int {
    if n == 0 then 0 else Times(n - 1, d) + d
  }

  lemma {:induction false} TimesIsProduct(n: nat, d: int)
    ensures Times(n, d) == n * d
  {
    if n > 0 { TimesIsProduct(n - 1, d); }
  }

  lemma {:induction false} TimesMonotone(m: nat, n: nat, d: int)
    requires m <= n && d >= 0
    ensures Times(m, d) <= Times(n, d)
  {
    if m < n { TimesMonotone(m, n - 1, d); }
  }

  function ResponseOf(r: Reply): Option<Reply> {
    if r.Response? then Some(r) else None
  }

  /** The waits before attempts 1 to n. */
  function Delays(w: World, o: Options, n: nat): seq<int> {
    if n == 0 then []
    else Delays(w, o, n - 1) + [Delay(n, ResponseOf(w.next(n - 1)), w.retryAfter(n - 1), w.jitter(n), o)]
  }

  lemma {:induction false} DelaysCount(w: World, o: Options, n: nat)
    ensures |Delays(w, o, n)| == n
  {
    if n > 0 {
      DelaysCount(w, o, n - 1);
    }
  }

  /** Attempts 0 to n were sent in order, all before n were transient, and everything but the last response
      is drained. */
  ghost predicate Progress(w: World, o: Options, n: nat, log: seq<Event>) {
    && Sends(log) == Upto(n + 1)
    && Drains(log) == Responses(w, n)
    && Naps(log) == Delays(w, o, n)
    && Sleep(log) <= Times(n, o.maxDelay)
    && forall m :: 0 <= m < n ==> Transient(w.next(m))
  }

  /** The loop is about to make attempt n + 1: the last response is drained too, and `naps` waits were asked for. */
  ghost predicate Waiting(w: World, o: Options, n: nat, naps: nat, log: seq<Event>) {
    && Sends(log) == Upto(n + 1)
    && Drains(log) == Responses(w, n + 1)
    && Naps(log) == Delays(w, o, naps)
    && Sleep(log) <= Times(n + 1, o.maxDelay)
    && forall m :: 0 <= m <= n ==> Transient(w.next(m))
  }

  /** Before attempt m the body can be had again and the wait is not cut short. */
  predicate Resumes(w: World, body: Body, m: nat) {
    !(body == Replayable && w.bodyFails(m)) && !w.canceled(m)
  }

  ghost predicate Uninterrupted(w: World, body: Body, n: nat) {
    forall m :: 1 <= m <= n ==> Resumes(w, body, m)
  }

  /** The books of one logical request that ended in attempt n. */
  ghost predicate Accounted(w: World, body: Body, o: Options, result: Outcome, log: seq<Event>, n: nat) {
    && n < o.maxAttempts && (body == OneShot ==> n == 0) && Uninterrupted(w, body, n)
    && match result
       case Responded(a) => a == n && w.next(n).Response? && Progress(w, o, n, log) && Stops(w, body, o, n)
       case NextError(a) => a == n && w.next(n).Failed? && Progress(w, o, n, log) && Stops(w, body, o, n)
       case CanceledWait => Waiting(w, o, n, n + 1, log) && n + 1 < o.maxAttempts && body != OneShot
                            && w.canceled(n + 1) && !(body == Replayable && w.bodyFails(n + 1))
       case BodyError => Waiting(w, o, n, n, log) && n + 1 < o.maxAttempts && body == Replayable && w.bodyFails(n + 1)
  }

  predicate Stops(w: World, body: Body, o: Options, n: nat) {
    !Transient(w.next(n)) || n + 1 == o.maxAttempts || body == OneShot
  }

  lemma DrainAndWait(w: World, o: Options, n: nat, log: seq<Event>, delay: int)
    requires Progress(w, o, n, log) && Transient(w.next(n)) && delay <= o.maxDelay && o.maxDelay >= 0
    requires delay == Delay(n + 1, ResponseOf(w.next(n)), w.retryAfter(n), w.jitter(n + 1), o)
    ensures var drained := if w.next(n).Response? then log + [Drained(n)] else log;
            && Waiting(w, o, n, n, drained)
            && Waiting(w, o, n, n + 1, drained + [Slept(delay)])
            && Progress(w, o, n + 1, drained + [Slept(delay)] + [Sent(n + 1)])
  {
  }

  lemma FirstSent(w: World, o: Options)
    ensures Progress(w, o, 0, [] + [Sent(0)])
  {
    LogStep([], Sent(0));
  }

  /** The books when the loop stops of itself. */
  lemma EndsHere(w: World, body: Body, o: Options, log: seq<Event>, n: nat)
    requires n < o.maxAttempts && (body == OneShot ==> n == 0) && Uninterrupted(w, body, n)
    requires Progress(w, o, n, log) && Stops(w, body, o, n)
    ensures Accounted(w, body, o, if w.next(n).Response? then Responded(n) else NextError(n), log, n)
  {
  }

  method CalcDelay(attempt: nat, last: Option<Reply>, retryAfter: Option<int>, jitter: real, o: Options)
    returns (d: int)
    requires attempt >= 1
    ensures d == Delay(attempt, last, retryAfter, jitter, o) && d <= o.maxDelay
    ensures o.baseDelay >= 0 && -0.25 <= jitter <= 0.25 ==>
              && (AsksToWait(last, retryAfter) && retryAfter.value * SECOND < 0x8000_0000_0000_0000 ==>
                    d == Min(retryAfter.value * SECOND, o.maxDelay))
              && (!AsksToWait(last, retryAfter) ==> NearDoubling(d, attempt, o))
  {
    if o.baseDelay >= 0 && -0.25 <= jitter <= 0.25 {
      DelayIs(attempt, last, retryAfter, jitter, o);
    }
    DelayIsCapped(attempt, last, retryAfter, jitter, o);
    d := Delay(attempt, last, retryAfter, jitter, o);
  }

  /** What the loop does before attempt n + 1: drain the last response, get a fresh body, wait. */
  method BeforeRetry(w: World, body: Body, o: Options, n: nat, start: seq<Event>, resp: Option<Reply>, err: bool)
    returns (stop: Option<Outcome>, log: seq<Event>)
    requires n + 1 < o.maxAttempts && o.maxDelay >= 0 && body != OneShot
    requires Progress(w, o, n, start) && Transient(w.next(n)) && Uninterrupted(w, body, n)
    requires err == w.next(n).Failed? && resp == if err then None else Some(w.next(n))
    ensures stop.Some? ==> Accounted(w, body, o, stop.value, log, n)
    ensures stop.None? ==> Progress(w, o, n + 1, log + [Sent(n + 1)]) && Uninterrupted(w, body, n + 1)
  {
    var delay := CalcDelay(n + 1, resp, w.retryAfter(n), w.jitter(n + 1), o);
    if !err {
      var status := resp.value.code; // logged: a retryable status, so the response is there
    }
    DrainAndWait(w, o, n, start, delay);
    log := start;
    if resp.Some? {
      log := log + [Drained(n)];
    }
    if body == Replayable && w.bodyFails(n + 1) {
      return Some(BodyError), log;
    }
    log := log + [Slept(delay)];
    stop := if w.canceled(n + 1) then Some(CanceledWait) else None;
  }

  /** RoundTrip. `n` is the attempt it ended in. */
  method RoundTrip(w: World, body: Body, o: Options) returns (result: Outcome, log: seq<Event>, n: nat)
    requires o.maxAttempts >= 1 && o.maxDelay >= 0
    ensures Accounted(w, body, o, result, log, n)
  {
    log, n := [], 0;
    var resp: Option<Reply> := None;
    var err := false;
    FirstSent(w, o);
    for attempt := 0 to o.maxAttempts
      invariant attempt == 0 ==> log == []
      invariant attempt > 0 ==> n == attempt - 1 && Progress(w, o, n, log) && Transient(w.next(n))
      invariant Uninterrupted(w, body, n)
      invariant attempt > 0 ==> err == w.next(n).Failed? && resp == if err then None else Some(w.next(n))
      invariant body == OneShot ==> attempt <= 1
    {
      if attempt > 0 {
        if body == OneShot {
          EndsHere(w, body, o, log, n);
          result := if resp.Some? then Responded(n) else NextError(n);
          return;
        }
        var stop;
        stop, log := BeforeRetry(w, body, o, n, log, resp, err);
        if stop.Some? {
          return stop.value, log, n;
        }
      }
      log, n := log + [Sent(attempt)], attempt;
      if Stops(w, body, o, n) {
        EndsHere(w, body, o, log, n);
      }
      match w.next(attempt) {
        case Failed(authFailed) =>
          resp, err := None, true;
          if authFailed { return NextError(attempt), log, n; }
        case Response(code) =>
          resp, err := Some(w.next(attempt)), false;
          if !IsRetryable(code) { return Responded(attempt), log, n; }
      }
    }
    EndsHere(w, body, o, log, n);
    result := if resp.Some? then Responded(n) else NextError(n);
  }

  /** How a logical request ends from attempt n on, and in which attempt. */
  function Ending(w: World, body: Body, o: Options, n: nat): (Outcome, nat)
    requires n < o.maxAttempts
    decreases o.maxAttempts - n
  {
    if Stops(w, body, o, n) then (if w.next(n).Response? then Responded(n) else NextError(n), n)
    else if body == Replayable && w.bodyFails(n + 1) then (BodyError, n)
    else if w.canceled(n + 1) then (CanceledWait, n)
    else Ending(w, body, o, n + 1)
  }

  /** The books leave no choice: what next answers and what interrupts the waits decide the result. */
  lemma {:induction false} EndingIs(w: World, body: Body, o: Options, result: Outcome, log: seq<Event>, n: nat,
                                    from: nat)
    requires Accounted(w, body, o, result, log, n) && from <= n
    ensures Ending(w, body, o, from) == (result, n)
    decreases n - from
  {
    if from < n {
      assert Transient(w.next(from)) && Resumes(w, body, from + 1);
      EndingIs(w, body, o, result, log, n, from + 1);
    } else if result.CanceledWait? || result.BodyError? {
      assert Transient(w.next(n));
    }
  }

  /** What the books say: attempt numbers were sent in order, at most maxAttempts of them and one for a body that
      cannot be replayed; every response but the returned one was drained, once; the waits asked for add up to at
      most (maxAttempts - 1) * maxDelay; and unless the context ended or the body could not be read again, the
      result is the reply of the first attempt that was not transient, or of the last. */
  lemma RetryAccounting(w: World, body: Body, o: Options, result: Outcome, log: seq<Event>, n: nat)
    requires o.maxAttempts >= 1 && o.maxDelay >= 0 && Accounted(w, body, o, result, log, n)
    ensures Sends(log) == Upto(n + 1) && |Sends(log)| <= o.maxAttempts && (body == OneShot ==> Sends(log) == [0])
    ensures Drains(log) == Responses(w, if result.Responded? then n else n + 1)
    ensures Sleep(log) <= (o.maxAttempts - 1) * o.maxDelay
    ensures body != OneShot && (result.Responded? || result.NextError?) ==> n == LastAttempt(w, o.maxAttempts, 0)
    ensures body == OneShot ==> n == 0 && (result == Responded(0) || result == NextError(0))
  {
    var waits := if result.Responded? || result.NextError? then n else n + 1;
    TimesMonotone(waits, o.maxAttempts - 1, o.maxDelay);
    TimesIsProduct(o.maxAttempts - 1, o.maxDelay);
    if body != OneShot && (result.Responded? || result.NextError?) {
      LastAttemptIs(w, o.maxAttempts, n, 0);
    }
    assert |Upto(n + 1)| == n + 1;
  }

  /** The jitter is what the code draws: at most a quarter, up or down. */
  ghost predicate SmallJitter(w: World) {
    forall n: nat :: -0.25 <= w.jitter(n) <= 0.25
  }

  /** d is what should be waited after attempt n. */
  predicate RightNap(w: World, o: Options, n: nat, d: int) {
    RightDelay(w.next(n), w.retryAfter(n), o, n + 1, d)
  }

  /** d is what should be waited before attempt number `attempt` (from 0), the one before having come to `last`. */
  predicate RightDelay(last: Reply, retryAfter: Option<int>, o: Options, attempt: nat, d: int)
    requires attempt >= 1
  {
    if last == Response(429) && retryAfter.Some? && retryAfter.value > 0 then
      retryAfter.value * SECOND < 0x8000_0000_0000_0000 ==> d == Min(retryAfter.value * SECOND, o.maxDelay)
    else NearDoubling(d, attempt, o)
  }

  lemma {:induction false} DelaysAreRight(w: World, o: Options, n: nat)
    requires o.baseDelay >= 0 && SmallJitter(w)
    ensures |Delays(w, o, n)| == n && forall k :: 0 <= k < n ==> RightNap(w, o, k, Delays(w, o, n)[k])
  {
    if n > 0 {
      DelaysAreRight(w, o, n - 1);
      DelayIs(n, ResponseOf(w.next(n - 1)), w.retryAfter(n - 1), w.jitter(n), o);
    }
  }

  function Sum(s: seq<int>): int {
    if s == [] then 0 else Sum(s[..|s| - 1]) + s[|s| - 1]
  }

  lemma LastNap(before: seq<int>, last: seq<int>)
    requires |last| <= 1
    ensures Sum(before + last) == Sum(before) + if last == [] then 0 else last[0]
  {
    assert last == [] ==> before + last == before;
    assert last != [] ==> (before + last)[..|before|] == before;
  }

  lemma {:induction false} SleepIsSum(log: seq<Event>)
    ensures Sleep(log) == Sum(Naps(log))
  {
    if log != [] {
      SleepIsSum(log[..|log| - 1]);
      LastNap(Naps(log[..|log| - 1]), if log[|log| - 1].Slept? then [log[|log| - 1].duration] else []);
    }
  }

  /** Three quarters of the doubled base delays of n waits, each up to the cap. */
  function LeastSleep(o: Options, n: nat): int {
    if n == 0 then 0
    else LeastSleep(o, n - 1) + Min((o.baseDelay as real * Pow2(n - 1) as real * 0.75).Floor, o.maxDelay)
  }

  lemma {:induction false} SumAtLeast(o: Options, naps: seq<int>)
    requires forall k :: 0 <= k < |naps| ==> NearDoubling(naps[k], k + 1, o)
    ensures Sum(naps) >= LeastSleep(o, |naps|)
  {
    if naps != [] {
      assert NearDoubling(naps[|naps| - 1], |naps|, o);
      SumAtLeast(o, naps[..|naps| - 1]);
    }
  }

  predicate NobodyAsks(w: World, n: nat) {
    forall k: nat :: k < n ==> !AsksToWait(ResponseOf(w.next(k)), w.retryAfter(k))
  }

  /** A wait is asked for before every attempt but the first, and before the one a canceled context prevents: each is
      what the last response asks for, or the doubled base delay, give or take a quarter, up to the cap. So a request
      whose server asks for nothing sleeps at least three quarters of the doubled delays. */
  lemma WaitsBackOff(w: World, body: Body, o: Options, result: Outcome, log: seq<Event>, n: nat)
    requires o.baseDelay >= 0 && SmallJitter(w) && Accounted(w, body, o, result, log, n)
    ensures |Naps(log)| == if result.CanceledWait? then n + 1 else n
    ensures forall k :: 0 <= k < |Naps(log)| ==> RightNap(w, o, k, Naps(log)[k])
    ensures NobodyAsks(w, |Naps(log)|) ==> Sleep(log) >= LeastSleep(o, |Naps(log)|)
  {
    DelaysAreRight(w, o, if result.CanceledWait? then n + 1 else n);
    SleepIsSum(log);
    if NobodyAsks(w, |Naps(log)|) {
      UnaskedNaps(w, o, Naps(log));
    }
  }

  lemma UnaskedNaps(w: World, o: Options, naps: seq<int>)
    requires NobodyAsks(w, |naps|) && forall k :: 0 <= k < |naps| ==> RightNap(w, o, k, naps[k])
    ensures Sum(naps) >= LeastSleep(o, |naps|)
  {
    forall k: nat | k < |naps| ensures NearDoubling(naps[k], k + 1, o) {
      assert RightNap(w, o, k, naps[k]) && !AsksToWait(ResponseOf(w.next(k)), w.retryAfter(k));
    }
    SumAtLeast(o, naps);
  }

  /** Each response is drained at most once. */
  lemma {:induction false} DrainedOnce(w: World, n: nat)
    ensures forall m :: m in Responses(w, n) <==> 0 <= m < n && w.next(m).Response?
    ensures forall a, b :: 0 <= a < b < |Responses(w, n)| ==> Responses(w, n)[a] < Responses(w, n)[b]
  {
    if n > 0 {
      DrainedOnce(w, n - 1);
      var before := Responses(w, n - 1);
      assert forall a :: 0 <= a < |before| ==> before[a] in before;
    }
  }
}
