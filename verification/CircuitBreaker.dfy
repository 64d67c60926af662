/** The authentication kill switch (pkg/upstream/transport/circuitbreaker.go). */
module CircuitBreakers {
  import opened Text

  /** What the next transport answers. */
  datatype Reply = Response(code: int) | Failed(authFailed: bool)

  const DEFAULT_MAX_FAILS := 5

  function ToInt32(n: int): int {
    (n + 0x8000_0000) % 0x1_0000_0000 - 0x8000_0000
  }

  /** The configured threshold as far as 32 bits hold it, five if that is not positive. */
  function MaxFails(configured: int): (m: int)
    ensures m >= 1
    ensures var low := configured % 0x1_0000_0000; m == if 1 <= low < 0x8000_0000 then low else 5
  {
    if ToInt32(configured) <= 0 then DEFAULT_MAX_FAILS else ToInt32(configured)
  }

  predicate IsAuthError(code: int) {
    code == 401 || code == 403
  }

  predicate CountsAsFailure(r: Reply): (b: bool)
    ensures b <==> r in {Response(401), Response(403), Failed(true)}
  {
    match r
    case Response(code) => IsAuthError(code)
    case Failed(authFailed) => authFailed
  }

  predicate Resets(r: Reply): (b: bool)
    ensures b <==> r.Response? && r !in {Response(401), Response(403)}
  {
    r.Response? && !IsAuthError(r.code)
  }

  datatype Breaker = Breaker(failures: int, disabled: bool, openings: nat)

  const CLOSED := Breaker(0, false, 0)

  function Record(b: Breaker, max: int): Breaker {
    var n := b.failures + 1;
    Breaker(n, b.disabled || n >= max, if n >= max && !b.disabled then b.openings + 1 else b.openings)
  }

  /** One request, with what `next` answers if it is asked. */
  function Trip(b: Breaker, r: Reply, max: int): Breaker {
    if b.disabled then b
    else if CountsAsFailure(r) then Record(b, max)
    else if Resets(r) then b.(failures := 0)
    else b
  }

  class CircuitBreaker {
    const max: int
    var failures: int
    var disabled: bool
    /** How often the open metric was set. */
    var openings: nat

    function Now(): Breaker reads this {
      Breaker(failures, disabled, openings)
    }

    constructor (configured: int)
      ensures Now() == CLOSED && max == MaxFails(configured)
    {
      max, failures, disabled, openings := MaxFails(configured), 0, false, 0;
    }

    method RecordAuthFailure()
      modifies this
      ensures Now() == Record(old(Now()), max)
    {
      failures := failures + 1;
      var n := failures;
      if n >= max {
        var was := disabled;
        disabled := true;
        if !was {
          openings := openings + 1;
        }
      }
    }

    /** RoundTrip; None stands for ErrCircuitOpen, and then next was not asked. */
    method RoundTrip(next: Reply) returns (r: Option<Reply>)
      modifies this
      ensures Now() == Trip(old(Now()), next, max)
      ensures r == if old(disabled) then None else Some(next)
    {
      if disabled { return None; }
      match next {
        case Failed(authFailed) =>
          if authFailed { RecordAuthFailure(); }
        case Response(code) =>
          if IsAuthError(code) {
            RecordAuthFailure();
          } else {
            failures := 0;
          }
      }
      return Some(next);
    }
  }

  // ---- one request after another ----

  function RunAll(replies: seq<Reply>, max: int): Breaker {
    if replies == [] then CLOSED else Trip(RunAll(replies[..|replies| - 1], max), replies[|replies| - 1], max)
  }

  /** Authentication failures among replies a to b. */
  function CountBetween(replies: seq<Reply>, a: nat, b: nat): nat
    requires a <= b <= |replies|
  {
    if a == b then 0
    else CountBetween(replies, a, b - 1) + if CountsAsFailure(replies[b - 1]) then 1 else 0
  }

  /** A stretch of replies with `max` authentication failures and no other response between them;
      network errors may lie anywhere in it. */
  ghost predicate FatalStretch(replies: seq<Reply>, max: int, a: nat, b: nat) {
    a <= b <= |replies| && CountBetween(replies, a, b) >= max && forall n :: a <= n < b ==> !Resets(replies[n])
  }

  ghost predicate HasFatalStretch(replies: seq<Reply>, max: int) {
    exists a: nat, b: nat :: FatalStretch(replies, max, a, b)
  }

  /** The start of the current reset-free stretch. */
  function StretchStart(replies: seq<Reply>): (a: nat)
    ensures a <= |replies| && forall n :: a <= n < |replies| ==> !Resets(replies[n])
    ensures a > 0 ==> Resets(replies[a - 1])
  {
    if replies == [] then 0
    else if Resets(replies[|replies| - 1]) then |replies|
    else StretchStart(replies[..|replies| - 1])
  }

  /** Failures since the last other response. */
  function Streak(replies: seq<Reply>): nat {
    CountBetween(replies, StretchStart(replies), |replies|)
  }

  lemma {:induction false} CountMonotone(replies: seq<Reply>, a: nat, b: nat, c: nat)
    requires a <= b <= c <= |replies|
    ensures CountBetween(replies, b, c) <= CountBetween(replies, a, c)
  {
    if b < c { CountMonotone(replies, a, b, c - 1); }
  }

  lemma {:induction false} CountExtends(init: seq<Reply>, last: Reply, a: nat, b: nat)
    requires a <= b <= |init|
    ensures CountBetween(init + [last], a, b) == CountBetween(init, a, b)
  {
    if a < b { CountExtends(init, last, a, b - 1); }
  }

  lemma StreakStep(init: seq<Reply>, last: Reply)
    ensures Streak(init + [last]) == if Resets(last) then 0 else if CountsAsFailure(last) then Streak(init) + 1
        else Streak(init)
  {
    var replies := init + [last];
    assert replies[..|init|] == init;
    if !Resets(last) { CountExtends(init, last, StretchStart(init), |init|); }
  }

  lemma FatalStays(init: seq<Reply>, last: Reply, max: int, a: nat, b: nat)
    requires FatalStretch(init, max, a, b)
    ensures FatalStretch(init + [last], max, a, b)
  {
    CountExtends(init, last, a, b);
  }

  lemma FatalIsOldOrCurrent(init: seq<Reply>, last: Reply, max: int, a: nat, b: nat)
    requires FatalStretch(init + [last], max, a, b)
    ensures FatalStretch(init, max, a, b) || Streak(init + [last]) >= max
  {
    var replies := init + [last];
    if b <= |init| {
      CountExtends(init, last, a, b);
      assert forall n :: a <= n < b ==> init[n] == replies[n];
    } else {
      var s := StretchStart(replies);
      assert s <= a;
      CountMonotone(replies, s, a, b);
    }
  }

  lemma StreakIsFatal(replies: seq<Reply>, max: int)
    requires Streak(replies) >= max
    ensures HasFatalStretch(replies, max)
  {
    assert FatalStretch(replies, max, StretchStart(replies), |replies|);
  }

  /** A fatal stretch that appears with the last reply is the current stretch. */
  lemma FatalStep(init: seq<Reply>, last: Reply, max: int)
    ensures HasFatalStretch(init + [last], max) <==> HasFatalStretch(init, max) || Streak(init + [last]) >= max
  {
    var replies := init + [last];
    if HasFatalStretch(init, max) {
      var a: nat, b: nat :| FatalStretch(init, max, a, b);
      FatalStays(init, last, max, a, b);
    }
    if Streak(replies) >= max { StreakIsFatal(replies, max); }
    if HasFatalStretch(replies, max) {
      var a: nat, b: nat :| FatalStretch(replies, max, a, b);
      FatalIsOldOrCurrent(init, last, max, a, b);
    }
  }

  lemma NothingFatal(max: int)
    requires max >= 1
    ensures !HasFatalStretch([], max) && Streak([]) == 0
  {
  }

  lemma {:induction false} CountIsStreak(replies: seq<Reply>, max: int)
    requires max >= 1
    ensures var b := RunAll(replies, max);
            && (b.disabled <==> HasFatalStretch(replies, max))
            && (!b.disabled ==> b.failures == Streak(replies) < max)
            && b.openings == if b.disabled then 1 else 0
  {
    if replies == [] {
      NothingFatal(max);
    } else {
      var init, last := replies[..|replies| - 1], replies[|replies| - 1];
      assert replies == init + [last];
      CountIsStreak(init, max);
      FatalStep(init, last, max);
      StreakStep(init, last);
    }
  }

  /** Sequentially, the breaker is open after a run of requests exactly when the replies contain maxFails
      authentication failures with no other response between them; the metric was then set once. */
  lemma OpenIffFatalStretch(replies: seq<Reply>, max: int)
    requires max >= 1
    ensures RunAll(replies, max).disabled <==> HasFatalStretch(replies, max)
    ensures RunAll(replies, max).openings == if HasFatalStretch(replies, max) then 1 else 0
  {
    CountIsStreak(replies, max);
  }

  // ---- any interleaving of requests ----

  /** A request between the atomic steps of RoundTrip and recordAuthFailure. */
  datatype Phase =
    | Asking                 // past the check, next not answered yet
    | Answered(r: Reply)     // next answered, counter not touched yet
    | Counted(n: int)        // its Add returned n
    | Opening                // its Swap found the switch off; metric still to be set
    | Over

  /** `order` lists the replies in the order their Add or Store hit the counter. */
  datatype System = System(failures: int, disabled: bool, openings: nat, reqs: map<nat, Phase>, order: seq<Reply>)

  const START := System(0, false, 0, map[], [])

  datatype Step = Check(id: nat) | Answer(id: nat, r: Reply) | Touch(id: nat) | Swap(id: nat) | SetMetric(id: nat)

  predicate Enabled(y: System, t: Step) {
    match t
    case Check(id) => id !in y.reqs
    case Answer(id, _) => id in y.reqs && y.reqs[id].Asking?
    case Touch(id) => id in y.reqs && y.reqs[id].Answered?
    case Swap(id) => id in y.reqs && y.reqs[id].Counted?
    case SetMetric(id) => id in y.reqs && y.reqs[id].Opening?
  }

  function Next(y: System, t: Step, max: int): System
    requires Enabled(y, t)
  {
    match t
    case Check(id) => y.(reqs := y.reqs[id := if y.disabled then Over else Asking])
    case Answer(id, r) => y.(reqs := y.reqs[id := Answered(r)])
    case Touch(id) =>
      var r := y.reqs[id].r;
      if CountsAsFailure(r) then
        y.(failures := y.failures + 1, order := y.order + [r], reqs := y.reqs[id := Counted(y.failures + 1)])
      else if Resets(r) then y.(failures := 0, order := y.order + [r], reqs := y.reqs[id := Over])
      else y.(order := y.order + [r], reqs := y.reqs[id := Over])
    case Swap(id) =>
      if y.reqs[id].n >= max then
        y.(disabled := true, reqs := y.reqs[id := if y.disabled then Over else Opening])
      else y.(reqs := y.reqs[id := Over])
    case SetMetric(id) => y.(openings := y.openings + 1, reqs := y.reqs[id := Over])
  }

  /** Some request has counted up to the threshold but not swapped yet. */
  ghost predicate AboutToOpen(y: System, max: int) {
    exists id :: id in y.reqs && y.reqs[id].Counted? && y.reqs[id].n >= max
  }

  ghost predicate Opener(y: System, id: nat) {
    id in y.reqs && y.reqs[id].Opening?
  }

  ghost predicate Inv(y: System, max: int) {
    && y.failures == Streak(y.order)
    && (HasFatalStretch(y.order, max) <==> y.disabled || AboutToOpen(y, max))
    && (forall a, b :: Opener(y, a) && Opener(y, b) ==> a == b)
    && (!y.disabled ==> y.openings == 0 && forall id :: !Opener(y, id))
    && y.openings <= 1
    && (y.openings == 1 ==> forall id :: !Opener(y, id))
    && (y.disabled && y.openings == 0 ==> exists id :: Opener(y, id))
  }

  lemma TouchKeeps(y: System, id: nat, max: int)
    requires max >= 1 && Enabled(y, Touch(id)) && Inv(y, max)
    ensures Inv(Next(y, Touch(id), max), max)
  {
    var r, z := y.reqs[id].r, Next(y, Touch(id), max);
    StreakStep(y.order, r);
    FatalStep(y.order, r, max);
    assert forall j :: Opener(z, j) <==> Opener(y, j);
    if CountsAsFailure(r) {
      CountedOneMore(y, z, id, y.failures + 1, max);
    } else {
      SameCounted(y, z, id, max);
      if Streak(y.order) >= max { StreakIsFatal(y.order, max); }
    }
  }

  lemma CountedOneMore(y: System, z: System, id: nat, n: int, max: int)
    requires z.reqs == y.reqs[id := Counted(n)] && (id in y.reqs ==> !y.reqs[id].Counted?)
    ensures AboutToOpen(z, max) <==> AboutToOpen(y, max) || n >= max
  {
    if AboutToOpen(y, max) {
      var j :| j in y.reqs && y.reqs[j].Counted? && y.reqs[j].n >= max;
      assert z.reqs[j] == y.reqs[j];
    }
    if n >= max { assert z.reqs[id] == Counted(n); }
  }

  lemma SwapKeeps(y: System, id: nat, max: int)
    requires max >= 1 && Enabled(y, Swap(id)) && Inv(y, max)
    ensures Inv(Next(y, Swap(id), max), max)
  {
    var z := Next(y, Swap(id), max);
    assert forall j :: j != id ==> (Opener(z, j) <==> Opener(y, j));
    if y.reqs[id].n >= max {
      assert AboutToOpen(y, max);
      assert !y.disabled ==> Opener(z, id);
    } else if AboutToOpen(y, max) {
      var j :| j in y.reqs && y.reqs[j].Counted? && y.reqs[j].n >= max;
      assert z.reqs[j] == y.reqs[j];
    }
  }

  lemma MetricKeeps(y: System, id: nat, max: int)
    requires max >= 1 && Enabled(y, SetMetric(id)) && Inv(y, max)
    ensures Inv(Next(y, SetMetric(id), max), max)
  {
    var z := Next(y, SetMetric(id), max);
    assert Opener(y, id);
    assert forall j :: Opener(z, j) ==> Opener(y, j) && j != id;
    SameCounted(y, z, id, max);
  }

  /** Steps outside the counter leave who is about to open alone. */
  lemma SameCounted(y: System, z: System, id: nat, max: int)
    requires forall j :: j != id ==> (j in y.reqs <==> j in z.reqs) && (j in y.reqs ==> y.reqs[j] == z.reqs[j])
    requires id in y.reqs ==> !y.reqs[id].Counted?
    requires id in z.reqs ==> !z.reqs[id].Counted?
    ensures AboutToOpen(y, max) <==> AboutToOpen(z, max)
  {
  }

  lemma QuietKeeps(y: System, t: Step, max: int)
    requires max >= 1 && Enabled(y, t) && (t.Check? || t.Answer?) && Inv(y, max)
    ensures Inv(Next(y, t, max), max)
  {
    var z := Next(y, t, max);
    assert forall j :: Opener(z, j) <==> Opener(y, j);
    SameCounted(y, z, t.id, max);
  }

  ghost predicate IsTrace(ys: seq<System>, steps: seq<Step>, max: int) {
    && |ys| == |steps| + 1 && ys[0] == START
    && forall n :: 0 <= n < |steps| ==> Enabled(ys[n], steps[n]) && ys[n + 1] == Next(ys[n], steps[n], max)
  }

  /** Under any interleaving the switch is off, or some request is between its Add and its Swap, exactly when the
      replies in counter order contain a fatal stretch; and the open metric is set at most once. */
  lemma {:induction false} BreakerHolds(ys: seq<System>, steps: seq<Step>, max: int, n: nat)
    requires max >= 1 && IsTrace(ys, steps, max) && n <= |steps|
    ensures Inv(ys[n], max)
  {
    if n == 0 {
      NothingFatal(max);
    } else {
      BreakerHolds(ys, steps, max, n - 1);
      match steps[n - 1]
      case Touch(id) => TouchKeeps(ys[n - 1], id, max);
      case Swap(id) => SwapKeeps(ys[n - 1], id, max);
      case SetMetric(id) => MetricKeeps(ys[n - 1], id, max);
      case Check(_) => QuietKeeps(ys[n - 1], steps[n - 1], max);
      case Answer(_, _) => QuietKeeps(ys[n - 1], steps[n - 1], max);
    }
  }

  lemma OpenStep(y: System, t: Step, max: int)
    requires Enabled(y, t) && y.disabled
    ensures Next(y, t, max).disabled
    ensures forall id :: id in Next(y, t, max).reqs && Next(y, t, max).reqs[id].Asking? ==>
              id in y.reqs && y.reqs[id].Asking?
  {
  }

  /** Open is for good, and from then on only requests already past the check can reach next. */
  lemma {:induction false} OpenForGood(ys: seq<System>, steps: seq<Step>, max: int, m: nat, n: nat)
    requires IsTrace(ys, steps, max) && m <= n <= |steps| && ys[m].disabled
    ensures ys[n].disabled
    ensures forall id :: id in ys[n].reqs && ys[n].reqs[id].Asking? ==> id in ys[m].reqs && ys[m].reqs[id].Asking?
  {
    if m < n {
      OpenForGood(ys, steps, max, m, n - 1);
      OpenStep(ys[n - 1], steps[n - 1], max);
    }
  }
}
