/** The composed client: the middlewares NewClient stacks, what they make of one logical request together, and what that
    bounds (pkg/upstream/transport/transport.go). */
module Chains {
  import opened Text
  import opened CircuitBreakers
  import opened SessionAuths
  import opened Retries

  // ---- Chain: the first middleware is outermost ----

  function Compose<T>(mws: seq<T -> T>, base: T): T {
    if mws == [] then base else mws[0](Compose(mws[1..], base))
  }

  method Chain<T>(start: T, mws: seq<T -> T>) returns (base: T)
    ensures base == Compose(mws, start)
  {
    base := start;
    var i := |mws|;
    while i > 0
      invariant 0 <= i <= |mws|
      invariant base == Compose(mws[i..], start)
    {
      i := i - 1;
      assert mws[i..][1..] == mws[i + 1..];
      base := mws[i](base);
    }
  }

  // ---- transports: what they do to the client's state, and their reply ----

  /** The session's fields, what has been asked of the outside so far, the token on the request now under way, the
      tokens the sends so far went out with, and the waits between attempts. */
  datatype Net =
    Net(shared: Shared, lookups: nat, auths: nat, tries: nat, header: string, sent: seq<string>, waits: seq<int>)

  const OFFLINE := Net(NO_SESSION, 0, 0, 0, "", [], [])

  datatype Client = Client(breaker: Breaker, net: Net)

  type Transport = Client -> (Client, Reply)

  /** The server and the clock: the moment of the i-th ensureToken, the i-th wire reply, and whether the session's
      GetBody fails on its i-th try. */
  datatype Server = Server(moments: nat -> Moment, wires: nat -> Reply, bodyFails: nat -> bool, early: int)

  /** What is outside the chain during the waits of one logical request. */
  datatype Waits =
    Waits(retryAfter: nat -> Option<int>, jitter: nat -> real, canceled: nat -> bool, bodyFails: nat -> bool)

  /** One logical request and the options of the client it is made on. */
  datatype Setup = Setup(body: Body, v: Server, q: Waits, o: Options, max: int)

  /** The base transport: one send. */
  function Wire(v: Server): Transport {
    (y: Client) => (y.(net := y.net.(sent := y.net.sent + [y.net.header])), v.wires(|y.net.sent|))
  }

  function Ensure(y: Client, invalidate: nat, v: Server): (Client, TokenResult) {
    var m := v.moments(y.net.lookups);
    (y.(net := y.net.(shared := SharedAfter(y.net.shared, invalidate, m, v.early), lookups := y.net.lookups + 1,
                      auths := y.net.auths + if Serves(y.net.shared, invalidate, m.before) then 0 else 1)),
     TokenFor(y.net.shared, invalidate, m))
  }

  function Attempt(next: Transport, y: Client, token: string, s: Setup): (Client, Reply) {
    var y' := y.(net := y.net.(tries := y.net.tries + 1, header := token));
    if s.body == Replayable && s.v.bodyFails(y.net.tries) then (y', Failed(false)) else next(y')
  }

  /** sessionAuthTransport.RoundTrip. */
  function SessionTrip(next: Transport, s: Setup, y: Client): (Client, Reply) {
    var (y1, t1) := Ensure(y, 0, s.v);
    match t1
    case NoToken(rejected) => (y1, Failed(rejected))
    case Token(token, g) =>
      var (y2, r) := Attempt(next, y1, token, s);
      if r != Response(401) || s.body == OneShot then (y2, r)
      else
        var (y3, t2) := Ensure(y2, g, s.v);
        match t2
        case NoToken(rejected) => (y3, Failed(rejected))
        case Token(token', _) => Attempt(next, y3, token', s)
  }

  /** The client after k attempts. */
  function After(next: Transport, y: Client, k: nat): Client {
    if k == 0 then y else next(After(next, y, k - 1)).0
  }

  /** What the retry loop meets when it keeps asking `next`. */
  function Heard(next: Transport, s: Setup, y: Client): World {
    World((k: nat) => next(After(next, y, k)).1, s.q.retryAfter, s.q.jitter, s.q.canceled, s.q.bodyFails)
  }

  function ReplyOf(w: World, result: Outcome): Reply {
    match result
    case Responded(a) => w.next(a)
    case NextError(a) => w.next(a)
    case CanceledWait => Failed(false)
    case BodyError => Failed(false)
  }

  /** retryTransport.RoundTrip, by the books its loop keeps. */
  function RetryTrip(next: Transport, s: Setup, y: Client): (Client, Reply) {
    var w := Heard(next, s, y);
    var (result, n) := Ending(w, s.body, WithDefaults(s.o), 0);
    var z := After(next, y, n + 1);
    (z.(net := Rested(z.net, NapsOf(w, WithDefaults(s.o), result, n))), ReplyOf(w, result))
  }

  function Rested(net: Net, naps: seq<int>): Net {
    net.(waits := net.waits + naps)
  }

  /** The waits before the attempts after the first, and the one a canceled context cuts short. */
  function NapsOf(w: World, o: Options, result: Outcome, n: nat): seq<int> {
    Delays(w, o, if result.CanceledWait? then n + 1 else n)
  }

  /** circuitBreakerTransport.RoundTrip; the circuit-open error is an error that is no credential rejection. */
  function BreakerTrip(next: Transport, s: Setup, y: Client): (Client, Reply) {
    if y.breaker.disabled then (y, Failed(false))
    else
      var (y', r) := next(y);
      (y'.(breaker := Trip(y'.breaker, r, MaxFails(s.max))), r)
  }

  // ---- NewClient's list ----

  datatype Layer = BreakerLayer | RetryLayer | MetricsLayer | TimeoutLayer | AuthLayer | DebugLayer

  /** What a layer makes of the transport inside it. Metrics and debug logging only watch; an attempt that times out is
      a failed reply of the transport inside. */
  function Meaning(layer: Layer, s: Setup): Transport -> Transport {
    match layer
    case BreakerLayer => (next: Transport) => (y: Client) => BreakerTrip(next, s, y)
    case RetryLayer => (next: Transport) => (y: Client) => RetryTrip(next, s, y)
    case AuthLayer => (next: Transport) => (y: Client) => SessionTrip(next, s, y)
    case MetricsLayer => (next: Transport) => next
    case TimeoutLayer => (next: Transport) => next
    case DebugLayer => (next: Transport) => next
  }

  function Meanings(layers: seq<Layer>, s: Setup): seq<Transport -> Transport> {
    if layers == [] then [] else [Meaning(layers[0], s)] + Meanings(layers[1..], s)
  }

  lemma ComposeOneMore(layer: Layer, rest: seq<Layer>, s: Setup, base: Transport)
    ensures Compose(Meanings([layer] + rest, s), base) == Meaning(layer, s)(Compose(Meanings(rest, s), base))
  {
    var layers := [layer] + rest;
    assert layers[1..] == rest;
    assert Meanings(layers, s)[1..] == Meanings(rest, s);
  }

  /** An attempt with a session token. */
  function SessionOver(s: Setup): Transport {
    var base := Wire(s.v);
    (x: Client) => SessionTrip(base, s, x)
  }

  /** One logical request: an open breaker refuses it; otherwise it is retried, each attempt carrying a session token if
      there is a session, and the breaker judges the one reply that comes of it. */
  function RequestTrip(hasAuth: bool, s: Setup, y: Client): (Client, Reply) {
    var attempt := if hasAuth then SessionOver(s) else Wire(s.v);
    BreakerTrip((x: Client) => RetryTrip(attempt, s, x), s, y)
  }

  /** `outer` is wrapped around `inner`. */
  predicate Around(layers: seq<Layer>, outer: Layer, inner: Layer) {
    exists i, j :: 0 <= i < j < |layers| && layers[i] == outer && layers[j] == inner
  }

  /** NewClient's middleware list. Composed, it is the logical request above, for every request and server; the metrics
      and the timeout are per attempt, and the debug log sees the request as it is sent. */
  method Layers(hasAuth: bool, debug: bool) returns (layers: seq<Layer>)
    ensures forall s, y :: Compose(Meanings(layers, s), Wire(s.v))(y) == RequestTrip(hasAuth, s, y)
    ensures Around(layers, RetryLayer, MetricsLayer) && Around(layers, RetryLayer, TimeoutLayer)
    ensures debug ==> Around(layers, RetryLayer, DebugLayer) && (hasAuth ==> Around(layers, AuthLayer, DebugLayer))
  {
    layers := [BreakerLayer, RetryLayer, MetricsLayer, TimeoutLayer];
    if hasAuth { layers := layers + [AuthLayer]; }
    if debug { layers := layers + [DebugLayer]; }
    assert layers == [BreakerLayer, RetryLayer, MetricsLayer, TimeoutLayer] + (if hasAuth then [AuthLayer] else []) +
                     if debug then [DebugLayer] else [];
    forall s, y ensures Compose(Meanings(layers, s), Wire(s.v))(y) == RequestTrip(hasAuth, s, y) {
      ComposedLayers(hasAuth, debug, s, y);
    }
    assert layers[1] == RetryLayer && layers[2] == MetricsLayer && layers[3] == TimeoutLayer;
    assert debug ==> layers[|layers| - 1] == DebugLayer;
    assert hasAuth ==> layers[4] == AuthLayer;
  }

  lemma ComposedLayers(hasAuth: bool, debug: bool, s: Setup, y: Client)
    ensures var layers := [BreakerLayer, RetryLayer, MetricsLayer, TimeoutLayer] +
                          (if hasAuth then [AuthLayer] else []) + if debug then [DebugLayer] else [];
            Compose(Meanings(layers, s), Wire(s.v))(y) == RequestTrip(hasAuth, s, y)
  {
    var tail := if debug then [DebugLayer] else [];
    var auth := (if hasAuth then [AuthLayer] else []) + tail;
    var base := Wire(s.v);
    if debug { ComposeOneMore(DebugLayer, [], s, base); }
    if hasAuth { ComposeOneMore(AuthLayer, tail, s, base); }
    assert !hasAuth ==> auth == tail;
    ComposeOneMore(TimeoutLayer, auth, s, base);
    ComposeOneMore(MetricsLayer, [TimeoutLayer] + auth, s, base);
    ComposeOneMore(RetryLayer, [MetricsLayer] + ([TimeoutLayer] + auth), s, base);
    ComposeOneMore(BreakerLayer, [RetryLayer] + ([MetricsLayer] + ([TimeoutLayer] + auth)), s, base);
    assert [BreakerLayer, RetryLayer, MetricsLayer, TimeoutLayer] + (if hasAuth then [AuthLayer] else []) + tail ==
           [BreakerLayer] + ([RetryLayer] + ([MetricsLayer] + ([TimeoutLayer] + auth)));
  }

  // ---- the client object ----

  /** A client with session authentication, as the Pi-hole adapter builds it. */
  class HttpClient {
    const breaker: CircuitBreaker
    const maxAuthFailures: int
    const o: Options
    const layers: seq<Layer>
    var net: Net

    constructor (maxAuthFailures: int, o: Options, debug: bool)
      ensures fresh(breaker) && Valid() && this.maxAuthFailures == maxAuthFailures && this.o == o
      ensures Now() == Client(CLOSED, OFFLINE)
    {
      var ls := Layers(true, debug);
      breaker := new CircuitBreaker(maxAuthFailures);
      layers := ls;
      this.maxAuthFailures, this.o, net := maxAuthFailures, o, OFFLINE;
    }

    ghost predicate Valid()
      reads this
    {
      && breaker.max == MaxFails(maxAuthFailures)
      && (net.shared.haveToken ==> net.shared.generation >= 1)
      && forall s, y :: Compose(Meanings(layers, s), Wire(s.v))(y) == RequestTrip(true, s, y)
    }

    ghost function Now(): Client
      reads this, breaker
    {
      Client(breaker.Now(), net)
    }

    /** One request through the breaker, the retry loop and the session: the composition of the client's own layers. */
    method DoRequest(body: Body, v: Server, q: Waits) returns (r: Reply)
      requires Valid()
      modifies this, breaker
      ensures Valid()
      ensures (Now(), r) == Compose(Meanings(layers, Setup(body, v, q, o, maxAuthFailures)), Wire(v))(old(Now()))
    {
      var y, s := Client(breaker.Now(), net), Setup(body, v, q, o, maxAuthFailures);
      assert Compose(Meanings(layers, s), Wire(v))(y) == RequestTrip(true, s, y);
      if breaker.disabled { return Failed(false); }
      var w := Heard(SessionOver(s), s, y);
      var result, log, n := RoundTrip(w, body, WithDefaults(o));
      r := ReplyOf(w, result);
      RequestIs(s, y, result, log, n);
      var _ := breaker.RoundTrip(r);
      net := Rested(NetAfter(s, y, n + 1), Naps(log));
    }
  }

  function NetAfter(s: Setup, y: Client, k: nat): (net: Net)
    requires Sane(y)
    ensures net.shared.haveToken ==> net.shared.generation >= 1
  {
    AfterKeepsSane(s, y, k);
    After(SessionOver(s), y, k).net
  }

  /** The session leaves the breaker alone. */
  lemma {:induction false} AfterKeepsBreaker(s: Setup, y: Client, k: nat)
    ensures After(SessionOver(s), y, k).breaker == y.breaker
  {
    if k > 0 {
      AfterKeepsBreaker(s, y, k - 1);
      SessionBounds(s, After(SessionOver(s), y, k - 1));
    }
  }

  /** Per attempt: at most two sends and two Authenticate calls. */
  lemma SessionBounds(s: Setup, y: Client)
    ensures var z := SessionOver(s)(y).0;
            z.breaker == y.breaker && |z.net.sent| <= |y.net.sent| + 2 && z.net.auths <= y.net.auths + 2
  {
  }

  /** What the loop's books say is what the composed request does. */
  lemma RequestIs(s: Setup, y: Client, result: Outcome, log: seq<Event>, n: nat)
    requires !y.breaker.disabled
    requires Accounted(Heard(SessionOver(s), s, y), s.body, WithDefaults(s.o), result, log, n)
    ensures var r := ReplyOf(Heard(SessionOver(s), s, y), result);
            RequestTrip(true, s, y) ==
            (Client(Trip(y.breaker, r, MaxFails(s.max)), Rested(After(SessionOver(s), y, n + 1).net, Naps(log))), r)
  {
    var w := Heard(SessionOver(s), s, y);
    EndingIs(w, s.body, WithDefaults(s.o), result, log, n, 0);
    AfterKeepsBreaker(s, y, n + 1);
    RetryIs(s, y, result, n);
  }

  lemma RetryIs(s: Setup, y: Client, result: Outcome, n: nat)
    requires Ending(Heard(SessionOver(s), s, y), s.body, WithDefaults(s.o), 0) == (result, n)
    ensures var w, z := Heard(SessionOver(s), s, y), After(SessionOver(s), y, n + 1);
            RetryTrip(SessionOver(s), s, y) ==
            (z.(net := Rested(z.net, NapsOf(w, WithDefaults(s.o), result, n))), ReplyOf(w, result))
  {
  }

  // ---- one attempt with a session ----

  /** A token in the cache was granted once. */
  predicate Sane(y: Client) {
    y.net.shared.haveToken ==> y.net.shared.generation >= 1
  }

  lemma SessionKeepsSane(s: Setup, y: Client)
    requires Sane(y)
    ensures Sane(SessionOver(s)(y).0)
  {
  }

  lemma {:induction false} AfterKeepsSane(s: Setup, y: Client, k: nat)
    requires Sane(y)
    ensures Sane(After(SessionOver(s), y, k))
  {
    if k > 0 {
      AfterKeepsSane(s, y, k - 1);
      SessionKeepsSane(s, After(SessionOver(s), y, k - 1));
    }
  }

  /** The cached token has not expired when the attempt looks it up. */
  predicate Cached(s: Setup, y: Client) {
    y.net.shared.haveToken && s.v.moments(y.net.lookups).before < y.net.shared.expiresAt
  }

  /** The token of the first send, if there is one. */
  function FirstToken(s: Setup, y: Client): Option<string> {
    if Cached(s, y) then Some(y.net.shared.token)
    else match s.v.moments(y.net.lookups).auth
      case Granted(token, _) => Some(token)
      case Refused(_) => None
  }

  /** GetBody fails on the k-th try from here. */
  predicate Unreadable(s: Setup, y: Client, k: nat) {
    s.body == Replayable && s.v.bodyFails(y.net.tries + k)
  }

  /** No token: the refusal is the reply, and nothing is sent. A body that cannot be read: likewise, with a plain
      error. */
  lemma AttemptWithoutSend(s: Setup, y: Client)
    requires FirstToken(s, y).None? || Unreadable(s, y, 0)
    ensures var (z, r) := SessionOver(s)(y);
            && z.net.sent == y.net.sent && z.net.auths == y.net.auths + (if Cached(s, y) then 0 else 1)
            && (FirstToken(s, y).Some? ==> r == Failed(false))
            && (FirstToken(s, y).None? ==> r == Failed(s.v.moments(y.net.lookups).auth.rejected))
  {
  }

  /** Any first reply but a 401, or a body that cannot be sent twice: one send, with the token, and that reply. */
  lemma AttemptWithOneSend(s: Setup, y: Client)
    requires FirstToken(s, y).Some? && !Unreadable(s, y, 0)
    requires s.v.wires(|y.net.sent|) != Response(401) || s.body == OneShot
    ensures var (z, r) := SessionOver(s)(y);
            && z.net.sent == y.net.sent + [FirstToken(s, y).value] && r == s.v.wires(|y.net.sent|)
            && z.net.auths == y.net.auths + if Cached(s, y) then 0 else 1
  {
  }

  /** A 401 to a body that can be sent again: the rejected token is given up and Authenticate called, once. A refusal is
      the reply. A grant goes out with a second send, whose reply is final, whatever it is. */
  lemma AttemptWithTwoSends(s: Setup, y: Client)
    requires Sane(y) && FirstToken(s, y).Some? && !Unreadable(s, y, 0)
    requires s.v.wires(|y.net.sent|) == Response(401) && s.body != OneShot
    ensures var (z, r) := SessionOver(s)(y); var again := s.v.moments(y.net.lookups + 1).auth;
            var first := y.net.sent + [FirstToken(s, y).value];
            && z.net.auths == y.net.auths + (if Cached(s, y) then 0 else 1) + 1
            && (again.Refused? ==> r == Failed(again.rejected) && z.net.sent == first)
            && (again.Granted? && Unreadable(s, y, 1) ==> r == Failed(false) && z.net.sent == first)
            && (again.Granted? && !Unreadable(s, y, 1) ==>
                  r == s.v.wires(|y.net.sent| + 1) && z.net.sent == first + [again.token])
  {
  }

  // ---- bounds ----

  lemma {:induction false} AfterBounds(s: Setup, y: Client, k: nat)
    ensures |After(SessionOver(s), y, k).net.sent| <= |y.net.sent| + 2 * k
    ensures After(SessionOver(s), y, k).net.auths <= y.net.auths + 2 * k
  {
    if k > 0 {
      AfterBounds(s, y, k - 1);
      SessionBounds(s, After(SessionOver(s), y, k - 1));
    }
  }

  lemma {:induction false} EndingBound(w: World, body: Body, o: Options, n: nat)
    requires n < o.maxAttempts
    ensures n <= Ending(w, body, o, n).1 < o.maxAttempts
    decreases o.maxAttempts - n
  {
    if !Stops(w, body, o, n) && !(body == Replayable && w.bodyFails(n + 1)) && !w.canceled(n + 1) {
      EndingBound(w, body, o, n + 1);
    }
  }

  lemma TripAddsOne(b: Breaker, r: Reply, max: int)
    ensures b.failures >= 0 ==> Trip(b, r, max).failures <= b.failures + 1
  {
  }

  /** An admitted request: its reply, and the number of attempts it took. */
  lemma Admitted(s: Setup, y: Client) returns (r: Reply, n: nat, naps: seq<int>)
    requires !y.breaker.disabled
    ensures n < WithDefaults(s.o).maxAttempts
    ensures RequestTrip(true, s, y).0 ==
            Client(Trip(y.breaker, r, MaxFails(s.max)), Rested(After(SessionOver(s), y, n + 1).net, naps))
  {
    var w := Heard(SessionOver(s), s, y);
    var ending := Ending(w, s.body, WithDefaults(s.o), 0);
    n := ending.1;
    r, naps := ReplyOf(w, ending.0), NapsOf(w, WithDefaults(s.o), ending.0, n);
    EndingBound(w, s.body, WithDefaults(s.o), 0);
    RetryIs(s, y, ending.0, n);
    AfterKeepsBreaker(s, y, n + 1);
  }

  /** At most `most` sends and Authenticate calls more, and at most one more on the breaker's count. */
  predicate Within(y: Client, z: Client, most: int) {
    && |z.net.sent| <= |y.net.sent| + most && z.net.auths <= y.net.auths + most
    && (y.breaker.failures >= 0 ==> z.breaker.failures <= y.breaker.failures + 1)
  }

  /** Each logical request makes at most 2 * MaxAttempts wire sends and as many Authenticate calls, and adds at most one
      to the breaker's count. */
  lemma RequestBounds(s: Setup, y: Client)
    ensures Within(y, RequestTrip(true, s, y).0, 2 * WithDefaults(s.o).maxAttempts)
  {
    if !y.breaker.disabled {
      var r, n, naps := Admitted(s, y);
      AdmittedBounds(s, y, r, n, naps);
    }
  }

  lemma AdmittedBounds(s: Setup, y: Client, r: Reply, n: nat, naps: seq<int>)
    requires n < WithDefaults(s.o).maxAttempts
    ensures Within(y, Client(Trip(y.breaker, r, MaxFails(s.max)), Rested(After(SessionOver(s), y, n + 1).net, naps)),
                   2 * WithDefaults(s.o).maxAttempts)
  {
    AttemptsBound(s, y, n + 1);
    TripAddsOne(y.breaker, r, MaxFails(s.max));
  }

  lemma AttemptsBound(s: Setup, y: Client, k: nat)
    requires k <= WithDefaults(s.o).maxAttempts
    ensures var z := After(SessionOver(s), y, k);
            && |z.net.sent| <= |y.net.sent| + 2 * WithDefaults(s.o).maxAttempts
            && z.net.auths <= y.net.auths + 2 * WithDefaults(s.o).maxAttempts
  {
    AfterBounds(s, y, k);
  }

  // ---- a request while the session lasts ----

  /** The cached token outlives the request, and the server never says 401. */
  ghost predicate Steady(s: Setup, y: Client) {
    && y.net.shared.haveToken && !y.breaker.disabled && s.body != Replayable
    && (forall i: nat :: s.v.moments(i).before < y.net.shared.expiresAt)
    && (forall i: nat :: s.v.wires(i) != Response(401))
    && (forall i: nat :: !s.q.canceled(i))
  }

  function Copies(token: string, k: nat): seq<string> {
    seq(k, i => token)
  }

  lemma SteadyAttempt(s: Setup, y: Client)
    requires Steady(s, y)
    ensures var (z, r) := SessionOver(s)(y);
            && r == s.v.wires(|y.net.sent|) && Steady(s, z)
            && z.net.sent == y.net.sent + [y.net.shared.token]
            && z.net.auths == y.net.auths && z.net.shared == y.net.shared && z.breaker == y.breaker
            && z.net.waits == y.net.waits
  {
  }

  /** After k sends with the cached token, and nothing else changed. */
  ghost predicate SteadyFrom(s: Setup, y: Client, k: nat, z: Client) {
    && Steady(s, z) && z.net.sent == y.net.sent + Copies(y.net.shared.token, k)
    && z.net.auths == y.net.auths && z.net.shared == y.net.shared && z.breaker == y.breaker
    && z.net.waits == y.net.waits
  }

  lemma {:induction false} SteadyAfter(s: Setup, y: Client, k: nat)
    requires Steady(s, y)
    ensures SteadyFrom(s, y, k, After(SessionOver(s), y, k))
  {
    if k > 0 {
      SteadyAfter(s, y, k - 1);
      SteadyOneMore(s, y, k - 1, After(SessionOver(s), y, k - 1));
    }
  }

  lemma SteadyOneMore(s: Setup, y: Client, k: nat, z: Client)
    requires SteadyFrom(s, y, k, z)
    ensures SteadyFrom(s, y, k + 1, SessionOver(s)(z).0)
  {
    SteadyAttempt(s, z);
    assert Copies(y.net.shared.token, k + 1) == Copies(y.net.shared.token, k) + [y.net.shared.token];
  }

  lemma SteadyReply(s: Setup, y: Client, k: nat)
    requires Steady(s, y)
    ensures SessionOver(s)(After(SessionOver(s), y, k)).1 == WireFrom(s, |y.net.sent|, k)
  {
    SteadyAfter(s, y, k);
    SteadyAttempt(s, After(SessionOver(s), y, k));
  }

  function WireFrom(s: Setup, first: nat, k: nat): Reply {
    s.v.wires(first + k)
  }

  /** Attempt n is the first whose reply is not worth retrying, or the last one allowed; a one-shot body has one. */
  ghost predicate LastTry(s: Setup, first: nat, n: nat) {
    && n < WithDefaults(s.o).maxAttempts
    && (forall m :: 0 <= m < n ==> Transient(WireFrom(s, first, m)))
    && (s.body == OneShot ==> n == 0)
    && (s.body == OneShot || n + 1 == WithDefaults(s.o).maxAttempts || !Transient(WireFrom(s, first, n)))
  }

  lemma {:induction false} SteadyEnding(w: World, s: Setup, first: nat, n: nat)
    requires n < WithDefaults(s.o).maxAttempts && s.body != Replayable && (s.body == OneShot ==> n == 0)
    requires (forall k: nat :: w.next(k) == WireFrom(s, first, k)) && (forall k: nat :: !w.canceled(k))
    requires forall m :: 0 <= m < n ==> Transient(WireFrom(s, first, m))
    ensures var (result, last) := Ending(w, s.body, WithDefaults(s.o), n);
            && n <= last && LastTry(s, first, last) && ReplyOf(w, result) == s.v.wires(first + last)
            && !result.CanceledWait?
    decreases WithDefaults(s.o).maxAttempts - n
  {
    assert w.next(n) == WireFrom(s, first, n);
    if !Stops(w, s.body, WithDefaults(s.o), n) {
      SteadyEnding(w, s, first, n + 1);
    }
  }

  /** The waits of such a request are the right ones for the replies it got. */
  predicate RightNaps(s: Setup, first: nat, naps: seq<int>) {
    forall k :: 0 <= k < |naps| ==>
      RightDelay(WireFrom(s, first, k), s.q.retryAfter(k), WithDefaults(s.o), k + 1, naps[k])
  }

  lemma SteadyNaps(s: Setup, first: nat, w: World, n: nat)
    requires SmallJitter(w) && w.retryAfter == s.q.retryAfter && forall k: nat :: w.next(k) == WireFrom(s, first, k)
    ensures var naps := Delays(w, WithDefaults(s.o), n); |naps| == n && RightNaps(s, first, naps)
  {
    DelaysAreRight(w, WithDefaults(s.o), n);
    var naps := Delays(w, WithDefaults(s.o), n);
    forall k | 0 <= k < |naps|
      ensures RightDelay(WireFrom(s, first, k), s.q.retryAfter(k), WithDefaults(s.o), k + 1, naps[k])
    {
      assert RightNap(w, WithDefaults(s.o), k, naps[k]) && w.next(k) == WireFrom(s, first, k);
    }
  }

  lemma SteadyOutcome(s: Setup, y: Client) returns (result: Outcome, n: nat)
    requires Steady(s, y)
    ensures var w := Heard(SessionOver(s), s, y);
            && Ending(w, s.body, WithDefaults(s.o), 0) == (result, n) && !result.CanceledWait?
            && LastTry(s, |y.net.sent|, n) && ReplyOf(w, result) == WireFrom(s, |y.net.sent|, n)
            && forall k: nat :: w.next(k) == WireFrom(s, |y.net.sent|, k)
  {
    var w := Heard(SessionOver(s), s, y);
    forall k: nat ensures w.next(k) == WireFrom(s, |y.net.sent|, k) {
      SteadyReply(s, y, k);
    }
    SteadyEnding(w, s, |y.net.sent|, 0);
    var ending := Ending(w, s.body, WithDefaults(s.o), 0);
    result, n := ending.0, ending.1;
  }

  /** While the session lasts, a request goes out with the cached token until a reply is not worth retrying or the
      attempts are used up, returns that reply, calls Authenticate not at all, shows the breaker that reply, and waits
      between attempts for as long as the replies ask for or the backoff says. */
  lemma SteadyRequest(s: Setup, y: Client) returns (n: nat)
    requires Steady(s, y)
    ensures LastTry(s, |y.net.sent|, n)
    ensures var (z, r) := RequestTrip(true, s, y);
            && r == WireFrom(s, |y.net.sent|, n) && z.breaker == Trip(y.breaker, r, MaxFails(s.max))
            && z.net.sent == y.net.sent + Copies(y.net.shared.token, n + 1) && z.net.auths == y.net.auths
            && exists naps :: z.net.waits == y.net.waits + naps && |naps| == n &&
                 (SmallJitters(s) ==> RightNaps(s, |y.net.sent|, naps))
  {
    var result;
    result, n := SteadyOutcome(s, y);
    SteadyAfter(s, y, n + 1);
    SteadyTrip(s, y, result, n);
    SteadyWaits(s, y, n);
  }

  lemma SteadyTrip(s: Setup, y: Client, result: Outcome, n: nat)
    requires !y.breaker.disabled && !result.CanceledWait? && After(SessionOver(s), y, n + 1).breaker == y.breaker
    requires Ending(Heard(SessionOver(s), s, y), s.body, WithDefaults(s.o), 0) == (result, n)
    ensures var r := ReplyOf(Heard(SessionOver(s), s, y), result);
            RequestTrip(true, s, y) ==
            (Client(Trip(y.breaker, r, MaxFails(s.max)),
                    Rested(After(SessionOver(s), y, n + 1).net, SteadyDelays(s, y, n))), r)
  {
    RetryIs(s, y, result, n);
  }

  ghost predicate SmallJitters(s: Setup) {
    forall i: nat :: -0.25 <= s.q.jitter(i) <= 0.25
  }

  function SteadyDelays(s: Setup, y: Client, n: nat): seq<int> {
    Delays(Heard(SessionOver(s), s, y), WithDefaults(s.o), n)
  }

  lemma SteadyWaits(s: Setup, y: Client, n: nat)
    requires forall k: nat :: Heard(SessionOver(s), s, y).next(k) == WireFrom(s, |y.net.sent|, k)
    ensures |SteadyDelays(s, y, n)| == n
    ensures SmallJitters(s) ==> RightNaps(s, |y.net.sent|, SteadyDelays(s, y, n))
  {
    var w := Heard(SessionOver(s), s, y);
    DelaysCount(w, WithDefaults(s.o), n);
    if SmallJitters(s) {
      SteadyNaps(s, |y.net.sent|, w, n);
    }
  }

  /** A request cut short in its first wait, by its context or its body, is a plain error: it is not taken for a
      credential rejection, and the breaker stays as it was. */
  lemma CutShort(s: Setup, y: Client)
    requires !y.breaker.disabled && s.body != OneShot && WithDefaults(s.o).maxAttempts > 1
    requires Transient(SessionOver(s)(y).1)
    requires s.q.canceled(1) || (s.body == Replayable && s.q.bodyFails(1))
    ensures var (z, r) := RequestTrip(true, s, y);
            r == Failed(false) && z.breaker == y.breaker && z.net == SessionOver(s)(y).0.net.(waits := z.net.waits)
  {
    var w := Heard(SessionOver(s), s, y);
    assert After(SessionOver(s), y, 0) == y;
    assert w.next(0) == SessionOver(s)(y).1;
    assert After(SessionOver(s), y, 1) == SessionOver(s)(After(SessionOver(s), y, 0)).0;
    SessionBounds(s, y);
    RetryIs(s, y, Ending(w, s.body, WithDefaults(s.o), 0).0, 0);
  }

  // ---- credentials rejected from the start ----

  ghost predicate AllRejected(v: Server) {
    forall i: nat :: v.moments(i).auth == Refused(true)
  }

  /** An attempt without a session, against a server that rejects the credentials, asks once and sends nothing. */
  lemma RejectedAttempt(s: Setup, y: Client)
    requires AllRejected(s.v) && !y.net.shared.haveToken
    ensures var (z, r) := SessionOver(s)(y);
            && r == Failed(true) && z.breaker == y.breaker
            && z.net.auths == y.net.auths + 1 && z.net.sent == y.net.sent && !z.net.shared.haveToken
  {
    assert s.v.moments(y.net.lookups).auth == Refused(true);
  }

  /** A rejection is not retried, and the breaker counts it. */
  lemma RejectedRequest(s: Setup, y: Client)
    requires AllRejected(s.v) && !y.net.shared.haveToken && !y.breaker.disabled
    ensures var z := RequestTrip(true, s, y).0;
            && z.breaker == Record(y.breaker, MaxFails(s.max))
            && z.net.auths == y.net.auths + 1 && z.net.sent == y.net.sent && !z.net.shared.haveToken
  {
    var w := Heard(SessionOver(s), s, y);
    RejectedAttempt(s, y);
    assert After(SessionOver(s), y, 0) == y;
    assert w.next(0) == Failed(true);
    assert Ending(w, s.body, WithDefaults(s.o), 0) == (NextError(0), 0);
    RetryIs(s, y, NextError(0), 0);
    assert After(SessionOver(s), y, 1) == SessionOver(s)(After(SessionOver(s), y, 0)).0;
  }

  /** A run of requests on one client, each with its own body and waits. */
  ghost predicate IsRun(ys: seq<Client>, setups: seq<Setup>, v: Server, o: Options, max: int) {
    && |ys| == |setups| + 1 && ys[0] == Client(CLOSED, OFFLINE)
    && forall n :: 0 <= n < |setups| ==>
         setups[n].v == v && setups[n].o == o && setups[n].max == max
             && ys[n + 1] == RequestTrip(true, setups[n], ys[n]).0
  }

  /** If every Authenticate is rejected from the start, then however many requests are made and whatever the settings,
      exactly min(requests, maxFails) Authenticate calls happen, the wire is never reached, and the breaker opens with
      the maxFails-th. */
  lemma {:induction false} RejectedCredentialsCostMaxFails(ys: seq<Client>, setups: seq<Setup>, v: Server, o: Options,
                                                            max: int, n: nat)
    requires IsRun(ys, setups, v, o, max) && AllRejected(v) && n <= |setups|
    ensures ys[n].net.auths == (if n < MaxFails(max) then n else MaxFails(max)) && ys[n].net.sent == []
    ensures ys[n].breaker.failures == ys[n].net.auths && (ys[n].breaker.disabled <==> n >= MaxFails(max))
    ensures !ys[n].net.shared.haveToken
  {
    if n > 0 {
      RejectedCredentialsCostMaxFails(ys, setups, v, o, max, n - 1);
      if !ys[n - 1].breaker.disabled {
        RejectedRequest(setups[n - 1], ys[n - 1]);
      }
    }
  }
}
