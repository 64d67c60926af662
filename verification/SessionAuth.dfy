/** The session-token middleware: one cached token, refreshed under a mutex, with a generation
    counter that collapses concurrent 401s (pkg/upstream/transport/sessionauth.go). */
module SessionAuths {
  import opened Arith

  const DEFAULT_EARLY_EXPIRY := 30 * SECOND
  const DEFAULT_TTL := 1800 * SECOND

  /** What Authenticate came to; `rejected` marks errors wrapping ErrAuthFailed. */
  datatype AuthResult = Granted(token: string, expiresIn: int) | Refused(rejected: bool)

  datatype Shared = Shared(token: string, expiresAt: int, haveToken: bool, generation: nat)

  const NO_SESSION := Shared("", 0, false, 0)

  datatype TokenResult = Token(token: string, generation: nat) | NoToken(rejected: bool)

  /** The clock as ensureToken reads it (before and after Authenticate) and what Authenticate would do. */
  datatype Moment = Moment(before: int, after: int, auth: AuthResult)

  function EarlyExpiry(configured: int): int {
    if configured <= 0 then DEFAULT_EARLY_EXPIRY else configured
  }

  function TimeToLive(expiresIn: int, early: int): int {
    var ttl := if expiresIn <= 0 then DEFAULT_TTL else expiresIn;
    if ttl > early then ttl - early else ttl
  }

  /** `life` is the reported lifetime, 30 minutes if that is not positive, less `early` if it is longer than that. */
  predicate LivesFor(life: int, expiresIn: int, early: int) {
    && (expiresIn > early && expiresIn > 0 ==> life == expiresIn - early)
    && (0 < expiresIn <= early ==> life == expiresIn)
    && (expiresIn <= 0 && early < 1800 * SECOND ==> life == 1800 * SECOND - early)
    && (expiresIn <= 0 && early >= 1800 * SECOND ==> life == 1800 * SECOND)
  }

  /** The cached token serves the caller as it is. */
  predicate Serves(s: Shared, invalidate: nat, now: int) {
    if invalidate == 0 then s.haveToken && now < s.expiresAt else invalidate != s.generation
  }

  function SharedAfter(s: Shared, invalidate: nat, m: Moment, early: int): Shared {
    if Serves(s, invalidate, m.before) then s
    else match m.auth
      case Refused(_) => s.(haveToken := false)
      case Granted(token, expiresIn) => Shared(token, m.after + TimeToLive(expiresIn, early), true, s.generation + 1)
  }

  function TokenFor(s: Shared, invalidate: nat, m: Moment): TokenResult {
    if Serves(s, invalidate, m.before) then Token(s.token, s.generation)
    else match m.auth
      case Refused(rejected) => NoToken(rejected)
      case Granted(token, _) => Token(token, s.generation + 1)
  }

  class SessionAuth {
    const early: int
    var token: string
    var expiresAt: int
    var haveToken: bool
    var generation: nat

    ghost function Now(): Shared reads this {
      Shared(token, expiresAt, haveToken, generation)
    }

    constructor (earlyExpiry: int)
      ensures !haveToken && generation == 0 && Now() == NO_SESSION
      ensures early == (if earlyExpiry > 0 then earlyExpiry else 30 * SECOND) == EarlyExpiry(earlyExpiry)
    {
      early := EarlyExpiry(earlyExpiry);
      token, expiresAt, haveToken, generation := "", 0, false, 0;
    }

    /** ensureToken, one critical section. Authenticate is not called for a plain lookup before the cached token
        expires, nor for a token rejected on a generation that is over. A granted token lives as long as it says, 30
        minutes if it does not, less the early expiry if that leaves anything; a refusal drops the cached one. */
    method EnsureToken(invalidate: nat, m: Moment) returns (r: TokenResult, called: bool)
      modifies this
      ensures Now() == SharedAfter(old(Now()), invalidate, m, early) && r == TokenFor(old(Now()), invalidate, m)
      ensures called == !Serves(old(Now()), invalidate, m.before)
      ensures called <==> if invalidate > 0 then invalidate == old(generation)
                          else !old(haveToken) || m.before >= old(expiresAt)
      ensures !called ==> Now() == old(Now()) && r == Token(token, generation)
      ensures called && m.auth.Refused? ==> Now() == old(Now()).(haveToken := false) && r == NoToken(m.auth.rejected)
      ensures called && m.auth.Granted? ==>
                && haveToken && token == m.auth.token && generation == old(generation) + 1
                && r == Token(token, generation) && LivesFor(expiresAt - m.after, m.auth.expiresIn, early)
    {
      if invalidate == 0 {
        if haveToken && m.before < expiresAt {
          return Token(token, generation), false;
        }
      } else if invalidate != generation {
        return Token(token, generation), false;
      }
      match m.auth {
        case Refused(rejected) =>
          haveToken := false;
          return NoToken(rejected), true;
        case Granted(t, expiresIn) =>
          var ttl := if expiresIn <= 0 then DEFAULT_TTL else expiresIn;
          if ttl > early {
            ttl := ttl - early;
          }
          token, expiresAt, haveToken, generation := t, m.after + ttl, true, generation + 1;
          return Token(token, generation), true;
      }
    }
  }

  // ---- any number of requests, interleaved ----

  /** Where a request is between its critical sections. */
  datatype Phase =
    | Sending(token: string, generation: nat)
    | Rejected(generation: nat)
    | Resending(token: string, generation: nat, rejectedOn: nat)
    | Finished

  /** One Authenticate call: the generation it was to invalidate (0 for a plain lookup) and whether it succeeded. */
  datatype Call = Call(invalidate: nat, ok: bool)

  /** A token, when it was granted, and the lifetime it came with. */
  datatype Grant = Grant(token: string, at: int, expiresIn: int)

  /** The shared fields, the requests, every Authenticate call, and every grant, in order. */
  datatype System = System(shared: Shared, reqs: map<nat, Phase>, calls: seq<Call>, grants: seq<Grant>)

  const START := System(NO_SESSION, map[], [], [])

  datatype Step =
    | Acquire(id: nat, m: Moment)                          // first ensureToken
    | Answer(id: nat, unauthorized: bool, replayable: bool) // the first attempt's response
    | Reacquire(id: nat, m: Moment)                        // ensureToken after a 401
    | AnswerAgain(id: nat)                                 // the second attempt's outcome

  predicate Enabled(y: System, t: Step) {
    match t
    case Acquire(id, _) => id !in y.reqs
    case Answer(id, _, _) => id in y.reqs && y.reqs[id].Sending?
    case Reacquire(id, _) => id in y.reqs && y.reqs[id].Rejected?
    case AnswerAgain(id) => id in y.reqs && y.reqs[id].Resending?
  }

  function Granting(m: Moment): seq<Grant> {
    match m.auth
    case Granted(token, expiresIn) => [Grant(token, m.after, expiresIn)]
    case Refused(_) => []
  }

  function Locked(y: System, invalidate: nat, m: Moment, early: int): System {
    var after := y.(shared := SharedAfter(y.shared, invalidate, m, early));
    if Serves(y.shared, invalidate, m.before) then after
    else after.(calls := y.calls + [Call(invalidate, m.auth.Granted?)], grants := y.grants + Granting(m))
  }

  function Next(y: System, t: Step, early: int): System
    requires Enabled(y, t)
  {
    match t
    case Acquire(id, m) =>
      var phase := match TokenFor(y.shared, 0, m) case Token(tok, g) => Sending(tok, g) case NoToken(_) => Finished;
      Locked(y, 0, m, early).(reqs := y.reqs[id := phase])
    case Answer(id, unauthorized, replayable) =>
      y.(reqs := y.reqs[id := if unauthorized && replayable then Rejected(y.reqs[id].generation) else Finished])
    case Reacquire(id, m) =>
      var g := y.reqs[id].generation;
      var phase := match TokenFor(y.shared, g, m) case Token(tok, h) => Resending(tok, h, g)
          case NoToken(_) => Finished;
      Locked(y, g, m, early).(reqs := y.reqs[id := phase])
    case AnswerAgain(id) => y.(reqs := y.reqs[id := Finished])
  }

  predicate IsGrant(y: System, token: string, generation: nat) {
    1 <= generation <= |y.grants| && y.grants[generation - 1].token == token
  }

  /** What a request may hold at any time. */
  predicate PhaseInv(y: System, p: Phase) {
    match p
    case Sending(token, g) => IsGrant(y, token, g)
    case Rejected(g) => 1 <= g <= |y.grants|
    case Resending(token, h, g) => IsGrant(y, token, h) && 1 <= g < h
    case Finished => true
  }

  predicate SharedInv(y: System) {
    && y.shared.generation == |y.grants|
    && (y.shared.generation > 0 ==> y.shared.token == y.grants[|y.grants| - 1].token)
    && (y.shared.haveToken ==> y.shared.generation > 0)
    && |y.grants| == Oks(y.calls)
  }

  ghost predicate Protocol(y: System) {
    && SharedInv(y) && CallsInv(y)
    && forall id :: id in y.reqs ==> PhaseInv(y, y.reqs[id])
  }

  /** Once a re-authentication for a generation has succeeded, no Authenticate call is made for it again. */
  ghost predicate CallsInv(y: System) {
    && (forall a :: 0 <= a < |y.calls| ==> y.calls[a].invalidate <= |y.grants|)
    && (forall a :: 0 <= a < |y.calls| && y.calls[a].ok && y.calls[a].invalidate > 0 ==>
          y.calls[a].invalidate < |y.grants|)
    && (forall a, b :: 0 <= a < b < |y.calls| && y.calls[a].invalidate == y.calls[b].invalidate > 0 ==> !y.calls[a].ok)
  }

  function Oks(calls: seq<Call>): nat {
    if calls == [] then 0 else Oks(calls[..|calls| - 1]) + if calls[|calls| - 1].ok then 1 else 0
  }

  lemma LockedKeeps(y: System, invalidate: nat, m: Moment, early: int)
    requires Protocol(y) && invalidate <= |y.grants|
    ensures var z := Locked(y, invalidate, m, early);
            Protocol(z) && y.shared.generation <= z.shared.generation
  {
    if !Serves(y.shared, invalidate, m.before) {
      LockedKeepsShared(y, invalidate, m, early);
      LockedKeepsCalls(y, invalidate, m, early);
      GrantsStay(y, Locked(y, invalidate, m, early));
    }
  }

  lemma OneCallMore(calls: seq<Call>, call: Call)
    ensures Oks(calls + [call]) == Oks(calls) + if call.ok then 1 else 0
  {
    assert (calls + [call])[..|calls|] == calls;
  }

  lemma LockedKeepsShared(y: System, invalidate: nat, m: Moment, early: int)
    requires SharedInv(y) && !Serves(y.shared, invalidate, m.before)
    ensures SharedInv(Locked(y, invalidate, m, early))
  {
    OneCallMore(y.calls, Call(invalidate, m.auth.Granted?));
  }

  /** A call is made for a generation only while that is the current one, so no successful call for it came before. */
  lemma LockedKeepsCalls(y: System, invalidate: nat, m: Moment, early: int)
    requires SharedInv(y) && CallsInv(y) && invalidate <= |y.grants| && !Serves(y.shared, invalidate, m.before)
    ensures CallsInv(Locked(y, invalidate, m, early))
  {
    var z := Locked(y, invalidate, m, early);
    forall a, b | 0 <= a < b < |z.calls| && z.calls[a].invalidate == z.calls[b].invalidate > 0 ensures !z.calls[a].ok {
      if b == |y.calls| {
        assert y.calls[a].invalidate == |y.grants|;
      } else {
        assert y.calls[a].invalidate == y.calls[b].invalidate;
      }
    }
  }

  lemma GrantsStay(y: System, z: System)
    requires y.grants <= z.grants && z.reqs == y.reqs && forall id :: id in y.reqs ==> PhaseInv(y, y.reqs[id])
    ensures forall id :: id in z.reqs ==> PhaseInv(z, z.reqs[id])
  {
    forall id | id in z.reqs ensures PhaseInv(z, z.reqs[id]) {
      assert PhaseInv(y, y.reqs[id]);
    }
  }

  lemma TokenIsGrant(y: System, invalidate: nat, m: Moment, early: int)
    requires Protocol(y) && invalidate <= |y.grants|
    ensures var z, r := Locked(y, invalidate, m, early), TokenFor(y.shared, invalidate, m);
            r.Token? ==> IsGrant(z, r.token, r.generation) && (0 < invalidate ==> r.generation > invalidate)
  {
  }

  lemma PhaseChange(z: System, id: nat, p: Phase)
    requires Protocol(z) && PhaseInv(z, p)
    ensures Protocol(z.(reqs := z.reqs[id := p]))
  {
  }

  lemma StepKeepsProtocol(y: System, t: Step, early: int)
    requires Protocol(y) && Enabled(y, t)
    ensures Protocol(Next(y, t, early)) && y.shared.generation <= Next(y, t, early).shared.generation
  {
    match t
    case Acquire(id, m) =>
      LockedKeeps(y, 0, m, early);
      TokenIsGrant(y, 0, m, early);
      PhaseChange(Locked(y, 0, m, early), id, Next(y, t, early).reqs[id]);
    case Answer(id, _, _) =>
      assert PhaseInv(y, y.reqs[id]);
      PhaseChange(y, id, Next(y, t, early).reqs[id]);
    case Reacquire(id, m) =>
      assert PhaseInv(y, y.reqs[id]);
      LockedKeeps(y, y.reqs[id].generation, m, early);
      TokenIsGrant(y, y.reqs[id].generation, m, early);
      PhaseChange(Locked(y, y.reqs[id].generation, m, early), id, Next(y, t, early).reqs[id]);
    case AnswerAgain(id) =>
      PhaseChange(y, id, Finished);
  }

  ghost predicate IsTrace(ys: seq<System>, steps: seq<Step>, early: int) {
    && |ys| == |steps| + 1 && ys[0] == START
    && forall n :: 0 <= n < |steps| ==> Enabled(ys[n], steps[n]) && ys[n + 1] == Next(ys[n], steps[n], early)
  }

  /** Over every interleaving of any number of requests: the generation is the number of successful
      authentications; every token in use is the one granted at its generation; a request that was told 401 holds a
      generation of at least 1, never the sentinel 0; a retry carries a later generation than the one rejected; and
      for each generation at most one re-authentication succeeds, after which none is attempted. */
  lemma {:induction false} ProtocolHolds(ys: seq<System>, steps: seq<Step>, early: int, n: nat)
    requires IsTrace(ys, steps, early) && n <= |steps|
    ensures Protocol(ys[n])
  {
    if n > 0 {
      ProtocolHolds(ys, steps, early, n - 1);
      StepKeepsProtocol(ys[n - 1], steps[n - 1], early);
    }
  }

  lemma GenerationStep(y: System, t: Step, early: int)
    requires Enabled(y, t)
    ensures y.shared.generation <= Next(y, t, early).shared.generation
  {
  }

  /** The generation never falls along a trace. */
  lemma {:induction false} GenerationNeverFalls(ys: seq<System>, steps: seq<Step>, early: int, m: nat, n: nat)
    requires IsTrace(ys, steps, early) && m <= n <= |steps|
    ensures ys[m].shared.generation <= ys[n].shared.generation
  {
    if m < n {
      GenerationNeverFalls(ys, steps, early, m, n - 1);
      GenerationStep(ys[n - 1], steps[n - 1], early);
    }
  }

  /** At most one request rejected on generation g completes a successful re-authentication for it. */
  lemma OneReauthenticationPerGeneration(ys: seq<System>, steps: seq<Step>, early: int, n: nat, a: nat, b: nat)
    requires IsTrace(ys, steps, early) && n <= |steps| && a < |ys[n].calls| && b < |ys[n].calls|
    requires ys[n].calls[a].ok && ys[n].calls[b].ok && ys[n].calls[a].invalidate == ys[n].calls[b].invalidate > 0
    ensures a == b
  {
    ProtocolHolds(ys, steps, early, n);
  }

  /** A retry after a 401 on generation g carries the token of a generation above g. */
  lemma RetryCarriesLaterToken(ys: seq<System>, steps: seq<Step>, early: int, n: nat, id: nat)
    requires IsTrace(ys, steps, early) && n <= |steps| && id in ys[n].reqs && ys[n].reqs[id].Resending?
    ensures var p := ys[n].reqs[id];
            1 <= p.rejectedOn < p.generation <= |ys[n].grants| && p.token == ys[n].grants[p.generation - 1].token
  {
    ProtocolHolds(ys, steps, early, n);
    assert PhaseInv(ys[n], ys[n].reqs[id]);
  }

  // ---- when a plain lookup is served ----

  /** The cache is usable exactly if the last authentication succeeded, and expires with its grant. */
  ghost predicate CacheInv(y: System, early: int) {
    && (y.shared.haveToken <==> y.calls != [] && y.calls[|y.calls| - 1].ok)
    && (y.shared.haveToken ==> y.grants != [] && var g := y.grants[|y.grants| - 1];
          LivesFor(y.shared.expiresAt - g.at, g.expiresIn, early))
  }

  lemma LockedKeepsCache(y: System, invalidate: nat, m: Moment, early: int)
    requires CacheInv(y, early)
    ensures CacheInv(Locked(y, invalidate, m, early), early)
  {
  }

  lemma {:induction false} CacheHolds(ys: seq<System>, steps: seq<Step>, early: int, n: nat)
    requires IsTrace(ys, steps, early) && n <= |steps|
    ensures CacheInv(ys[n], early)
  {
    if n > 0 {
      CacheHolds(ys, steps, early, n - 1);
      StepKeepsCache(ys[n - 1], steps[n - 1], early);
    }
  }

  lemma StepKeepsCache(y: System, t: Step, early: int)
    requires CacheInv(y, early) && Enabled(y, t)
    ensures CacheInv(Next(y, t, early), early)
  {
    match t
    case Acquire(_, m) => LockedKeepsCache(y, 0, m, early);
    case Reacquire(id, m) => LockedKeepsCache(y, y.reqs[id].generation, m, early);
    case Answer(_, _, _) =>
    case AnswerAgain(_) =>
  }

  /** Some lifetime of the last grant is still running. */
  ghost predicate StillLives(y: System, early: int, now: int) {
    y.grants != [] && var g := y.grants[|y.grants| - 1];
    exists life :: LivesFor(life, g.expiresIn, early) && now < g.at + life
  }

  /** Over every interleaving: a plain lookup makes no Authenticate call exactly when the last one succeeded and its
      token has not expired, and then the request gets that token; otherwise one call is made, and the request gets what
      it grants or ends. */
  lemma PlainLookupServedIff(ys: seq<System>, steps: seq<Step>, early: int, n: nat)
    requires IsTrace(ys, steps, early) && n < |steps| && steps[n].Acquire?
    ensures var y, z, m, id := ys[n], ys[n + 1], steps[n].m, steps[n].id;
            && (z.calls == y.calls <==>
                  y.calls != [] && y.calls[|y.calls| - 1].ok && StillLives(y, early, m.before))
            && (z.calls == y.calls ==>
                  z.grants == y.grants != [] && z.reqs[id] == Sending(y.grants[|y.grants| - 1].token, |y.grants|))
            && (z.calls != y.calls ==> z.calls == y.calls + [Call(0, m.auth.Granted?)])
            && (z.calls != y.calls && m.auth.Granted? ==>
                  && z.grants == y.grants + [Grant(m.auth.token, m.after, m.auth.expiresIn)]
                  && z.reqs[id] == Sending(m.auth.token, |z.grants|))
            && (z.calls != y.calls && m.auth.Refused? ==> z.grants == y.grants && z.reqs[id] == Finished)
  {
    ProtocolHolds(ys, steps, early, n);
    CacheHolds(ys, steps, early, n);
    assert |ys[n].calls + [Call(0, steps[n].m.auth.Granted?)]| > |ys[n].calls|;
  }

  /** A request told 401 makes an Authenticate call exactly when no token was granted since the one it used. */
  lemma RejectedLookupServedIff(ys: seq<System>, steps: seq<Step>, early: int, n: nat)
    requires IsTrace(ys, steps, early) && n < |steps| && steps[n].Reacquire?
    ensures var y, z, m, id := ys[n], ys[n + 1], steps[n].m, steps[n].id; var g := y.reqs[id].generation;
            && (z.calls == y.calls <==> g < |y.grants|)
            && (z.calls == y.calls ==> z.reqs[id] == Resending(y.grants[|y.grants| - 1].token, |y.grants|, g))
            && (z.calls != y.calls ==> z.calls == y.calls + [Call(g, m.auth.Granted?)])
            && (z.calls != y.calls && m.auth.Granted? ==> z.reqs[id] == Resending(m.auth.token, g + 1, g))
            && (z.calls != y.calls && m.auth.Refused? ==> z.reqs[id] == Finished)
  {
    ProtocolHolds(ys, steps, early, n);
    var y := ys[n];
    assert PhaseInv(y, y.reqs[steps[n].id]);
    assert |y.calls + [Call(y.reqs[steps[n].id].generation, steps[n].m.auth.Granted?)]| > |y.calls|;
  }

  /** Requests rejected on one generation, re-acquiring one after another with nothing in between, cost one
      Authenticate call if it succeeds: every later one is served the new token. */
  lemma ConcurrentRejectionsShareOneCall(s: Shared, g: nat, first: Moment, later: Moment, early: int)
    requires g == s.generation > 0 && first.auth.Granted?
    ensures var s' := SharedAfter(s, g, first, early);
            && !Serves(s, g, first.before) && Serves(s', g, later.before)
            && TokenFor(s', g, later) == Token(first.auth.token, g + 1) && SharedAfter(s', g, later, early) == s'
  {
  }
}
