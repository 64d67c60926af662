/** Failure counts, retry gates and retry spacing over runs (internal/reconcile/executor.go). */
module Spacing {
  import opened Text
  import opened Arith
  import opened Model
  import opened Drift
  import opened Diff
  import opened Registry
  import opened Effects
  import opened Reconcile
  import opened Plain

  // ---- one key's history: what each pass did to it, and when ----

  /** Dropped: its upstream is not configured and the store forgets it. Panic: an upsert panicked, and the record its
      source gave carries the count `own`. */
  datatype Turn = Idle | Dropped | Failure | Panic(own: int) | Success

  datatype Event = Event(turn: Turn, now: int)

  function TurnOf(e: Env, gates: Gates, op: Op): Turn {
    if op.record.upstream !in e.upstreams then (if op.kind == Delete then Dropped else Idle)
    else match ResultOf(e, gates, op)
      case Skip => Idle
      case Errored(_) => if op.kind != Delete && e.oracle(KeyOf(op)).Panics? then Panic(op.record.failures) else Failure
      case Upserted(_) => Success
      case Removed(_) => Success
  }

  function TurnIn(c: Config, w: World, i: Input, k: string): Turn
    requires Collectable(c, w, i)
  {
    if i.end.Completed? && k in PassOps(c, w, i) then TurnOf(EnvOf(c, w, i), w.gates, PassOps(c, w, i)[k]) else Idle
  }

  function History(c: Config, ws: seq<World>, ins: seq<Input>, k: string, n: nat): seq<Event>
    requires AllCollectable(c, ws, ins) && n <= |ins|
  {
    if n == 0 then []
    else History(c, ws, ins, k, n - 1) + [Event(TurnIn(c, ws[n - 1], ins[n - 1], k), ins[n - 1].now)]
  }

  /** A key's stored count, zero if it has no record, and its gate. */
  datatype KeyState = KeyState(failures: int, gate: Option<int>)

  function KeyOfCells(cell: Option<Record>, gate: Option<int>): KeyState {
    KeyState(if cell.Some? then cell.value.failures else 0, gate)
  }

  function KeyAt(w: World, k: string): KeyState {
    KeyOfCells(Get(w.store, k), Get(w.gates, k))
  }

  /** An error counts one more and closes the gate for that count's backoff; a success clears both. */
  function NextKey(s: KeyState, e: Event): KeyState {
    match e.turn
    case Idle => s
    case Dropped => s.(failures := 0)
    case Failure => KeyState(s.failures + 1, Some(e.now + Backoff(s.failures + 1)))
    case Panic(own) => KeyState(own + 1, Some(e.now + Backoff(own + 1)))
    case Success => KeyState(0, None)
  }

  function KeyAfter(s: KeyState, h: seq<Event>): KeyState {
    if h == [] then s else NextKey(KeyAfter(s, h[..|h| - 1]), h[|h| - 1])
  }

  /** An op's turn decides what its cells become. */
  lemma OpCounts(e: Env, gates: Gates, op: Op, before: Option<Record>, gate: Option<int>)
    requires Get(e.recorded, KeyOf(op)) == before && (op.kind == Delete ==> before == Some(op.record))
    ensures KeyOfCells(CellAfter(e, gates, op, before), GateAfter(e, gates, op, gate)) ==
            NextKey(KeyOfCells(before, gate), Event(TurnOf(e, gates, op), e.now))
  {
  }

  lemma StepCounts(c: Config, w: World, i: Input, w': World, k: string)
    requires Step(c, w, i, w')
    ensures KeyAt(w', k) == NextKey(KeyAt(w, k), Event(TurnIn(c, w, i, k), i.now))
  {
    if i.end.Completed? {
      PassAt(c, w, i, w', k);
      if k in PassOps(c, w, i) {
        DeleteIsRecorded(c, w, i, k);
        OpCounts(EnvOf(c, w, i), w.gates, PassOps(c, w, i)[k], Get(w.store, k), Get(w.gates, k));
      }
    } else {
      EarlyEndChangesNothing(c, w, i, w');
    }
  }

  lemma DeleteIsRecorded(c: Config, w: World, i: Input, k: string)
    requires Collectable(c, w, i) && k in PassOps(c, w, i)
    ensures PassOps(c, w, i)[k].kind == Delete ==> Get(w.store, k) == Some(PassOps(c, w, i)[k].record)
  {
    OpAt(c, w, i, k);
  }

  /** In every run, from whatever store and gates, panics included: a key's stored count and its gate are exactly those
      its history gives, continuing from what was loaded. */
  lemma {:induction false} FailuresCountErrors(c: Config, ws: seq<World>, ins: seq<Input>, k: string, n: nat)
    requires IsRun(c, ws, ins) && n <= |ins|
    ensures KeyAt(ws[n], k) == KeyAfter(KeyAt(ws[0], k), History(c, ws, ins, k, n))
  {
    if n > 0 {
      FailuresCountErrors(c, ws, ins, k, n - 1);
      StepCounts(c, ws[n - 1], ins[n - 1], ws[n], k);
      var h, e := History(c, ws, ins, k, n - 1), Event(TurnIn(c, ws[n - 1], ins[n - 1], k), ins[n - 1].now);
      assert (h + [e])[..|h|] == h;
    }
  }

  function FailuresIn(h: seq<Event>): nat {
    if h == [] then 0 else FailuresIn(h[..|h| - 1]) + if h[|h| - 1].turn.Failure? then 1 else 0
  }

  /** With nothing but failures and idle passes since then, the count has grown by just the failures; since a success it
      is their number. */
  lemma {:induction false} CountSince(s: KeyState, before: seq<Event>, h: seq<Event>)
    requires forall m :: 0 <= m < |h| ==> h[m].turn.Failure? || h[m].turn.Idle?
    ensures KeyAfter(s, before + h).failures == KeyAfter(s, before).failures + FailuresIn(h)
    ensures before != [] && before[|before| - 1].turn.Success? ==> KeyAfter(s, before + h).failures == FailuresIn(h)
  {
    if h == [] {
      assert before + h == before;
    } else {
      CountSince(s, before, h[..|h| - 1]);
      assert (before + h)[..|before + h| - 1] == before + h[..|h| - 1];
    }
  }

  /** No source gives a record with a negative count. */
  predicate PlainCounts(h: seq<Event>) {
    forall m :: 0 <= m < |h| && h[m].turn.Panic? ==> h[m].turn.own >= 0
  }

  predicate IsError(t: Turn) {
    t.Failure? || t.Panic?
  }

  /** From counts that are not negative, none gets negative, and after an error it is at least one. */
  lemma {:induction false} CountsStayPositive(s: KeyState, h: seq<Event>)
    requires s.failures >= 0 && PlainCounts(h)
    ensures KeyAfter(s, h).failures >= if h != [] && IsError(h[|h| - 1].turn) then 1 else 0
  {
    if h != [] {
      CountsStayPositive(s, h[..|h| - 1]);
    }
  }

  /** A key's op failed, or panicked, in this pass. */
  predicate ErrorIn(c: Config, w: World, i: Input, k: string)
    requires Collectable(c, w, i)
  {
    IsError(TurnIn(c, w, i, k))
  }

  /** The gate is closed from `now` for the backoff of the count. */
  predicate ClosedFrom(s: KeyState, now: int) {
    s.gate == Some(now + Backoff(s.failures))
  }

  lemma ErrorGate(s: KeyState, e: Event, s': KeyState)
    requires IsError(e.turn) && s' == NextKey(s, e)
    ensures ClosedFrom(s', e.now)
  {
  }

  /** An error leaves the gate closed for the backoff of the count it leaves. */
  lemma ErrorClosesGate(c: Config, w: World, i: Input, w': World, k: string)
    requires Step(c, w, i, w') && ErrorIn(c, w, i, k)
    ensures ClosedFrom(KeyAt(w', k), i.now)
  {
    StepCounts(c, w, i, w', k);
    ErrorGate(KeyAt(w, k), Event(TurnIn(c, w, i, k), i.now), KeyAt(w', k));
  }

  predicate IsOpen(gate: Option<int>, t: int) {
    gate.None? || gate.value <= t
  }

  lemma StaysOpen(s: KeyState, e: Event, t: int)
    requires IsOpen(s.gate, t) && (IsError(e.turn) ==> e.now + 3600 * SECOND <= t)
    ensures IsOpen(NextKey(s, e).gate, t)
  {
  }

  // ---- waiting ----

  /** A call made in a pass means the key's gate was open. */
  lemma CallMeansOpenGate(c: Config, w: World, i: Input, w': World, k: string)
    requires Step(c, w, i, w') && i.end.Completed? && k in i.calls
    ensures !Gated(w.gates, k, i.now)
  {
    OpAt(c, w, i, k);
  }

  /** A pass leaves a gate that is still closed as it is. */
  lemma ClosedGateStands(c: Config, w: World, i: Input, w': World, k: string)
    requires Step(c, w, i, w') && Gated(w.gates, k, i.now)
    ensures Get(w'.gates, k) == Get(w.gates, k)
  {
    if i.end.Completed? {
      PassAt(c, w, i, w', k);
    }
  }

  ghost predicate ClockRuns(ins: seq<Input>) {
    forall a, b :: 0 <= a <= b < |ins| ==> ins[a].now <= ins[b].now
  }

  /** A gate stands until a pass at or after its time. */
  lemma {:induction false} GateStands(c: Config, ws: seq<World>, ins: seq<Input>, k: string, m: nat, n: nat, open: int)
    requires IsRun(c, ws, ins) && ClockRuns(ins) && m < n <= |ins| && Get(ws[m + 1].gates, k) == Some(open)
    ensures Get(ws[n].gates, k) == Some(open) || ins[n - 1].now >= open
  {
    if n > m + 1 {
      GateStands(c, ws, ins, k, m, n - 1, open);
      GateStandsOneMore(c, ws[n - 1], ins[n - 1], ws[n], k, ins[n - 2].now, open);
    }
  }

  lemma GateStandsOneMore(c: Config, w: World, i: Input, w': World, k: string, earlier: int, open: int)
    requires Step(c, w, i, w') && earlier <= i.now && (Get(w.gates, k) == Some(open) || earlier >= open)
    ensures Get(w'.gates, k) == Some(open) || i.now >= open
  {
    if Gated(w.gates, k, i.now) {
      ClosedGateStands(c, w, i, w', k);
    }
  }

  /** In every run, from whatever store and gates, panics included: a call waits out the backoff of every earlier error,
      by the count that error left in the store. */
  lemma RetryWaits(c: Config, ws: seq<World>, ins: seq<Input>, k: string, m: nat, n: nat)
    requires IsRun(c, ws, ins) && ClockRuns(ins) && m < n < |ins| && ErrorIn(c, ws[m], ins[m], k)
    requires ins[n].end.Completed? && k in ins[n].calls
    ensures ins[n].now >= ins[m].now + Backoff(KeyAt(ws[m + 1], k).failures)
  {
    ErrorClosesGate(c, ws[m], ins[m], ws[m + 1], k);
    WaitsOut(c, ws, ins, k, m, n, KeyAt(ws[m + 1], k).gate.value);
  }

  lemma WaitsOut(c: Config, ws: seq<World>, ins: seq<Input>, k: string, m: nat, n: nat, open: int)
    requires IsRun(c, ws, ins) && ClockRuns(ins) && m < n < |ins| && Get(ws[m + 1].gates, k) == Some(open)
    requires ins[n].end.Completed? && k in ins[n].calls
    ensures ins[n].now >= open
  {
    GateStands(c, ws, ins, k, m, n, open);
    CallMeansOpenGate(c, ws[n], ins[n], ws[n + 1], k);
  }

  /** Between an error in pass m and any later attempt in pass n lies that error's full backoff: 30s doubled per error
      since the last success, counted on from what was loaded, and capped at an hour. The count is at least one unless
      the file or a source gave a negative one. */
  lemma RetrySpacing(c: Config, ws: seq<World>, ins: seq<Input>, k: string, m: nat, n: nat)
    requires IsRun(c, ws, ins) && ClockRuns(ins) && m < n < |ins| && ErrorIn(c, ws[m], ins[m], k)
    requires ins[n].end.Completed? && k in ins[n].calls
    ensures var start, h := KeyAt(ws[0], k), History(c, ws, ins, k, m + 1);
            && (start.failures >= 0 && PlainCounts(h) ==> KeyAfter(start, h).failures >= 1)
            && ins[n].now >= ins[m].now + CappedDoubling(KeyAfter(start, h).failures)
  {
    RetryWaits(c, ws, ins, k, m, n);
    FailuresCountErrors(c, ws, ins, k, m + 1);
    var start, h := KeyAt(ws[0], k), History(c, ws, ins, k, m + 1);
    if start.failures >= 0 && PlainCounts(h) {
      CountsStayPositive(start, h);
    }
    BackoffCapped(KeyAt(ws[m + 1], k).failures);
  }

  /** 30s doubled per error after the first, at most an hour; nothing for a count that is not positive. */
  function CappedDoubling(count: int): int {
    if count >= 1 then Min(30 * SECOND * Pow2(count - 1), 3600 * SECOND) else 0
  }

  lemma BackoffCapped(count: int)
    ensures Backoff(count) == CappedDoubling(count)
  {
    if count >= 1 {
      BackoffIsCappedDoubling(count);
    }
  }

  /** In every run, panics included: a gate that was open at the start is open an hour after the key's last error,
      however many passes there were since. */
  lemma {:induction false} GatesOpenWithinTheHour(c: Config, ws: seq<World>, ins: seq<Input>, n: nat, k: string, t: int)
    requires IsRun(c, ws, ins) && n <= |ins| && !Gated(ws[0].gates, k, t)
    requires forall m :: 0 <= m < n && ErrorIn(c, ws[m], ins[m], k) ==> ins[m].now + 3600 * SECOND <= t
    ensures !Gated(ws[n].gates, k, t)
  {
    if n > 0 {
      GatesOpenWithinTheHour(c, ws, ins, n - 1, k, t);
      assert Step(c, ws[n - 1], ins[n - 1], ws[n]);
      OpenGateStaysOpen(c, ws[n - 1], ins[n - 1], ws[n], k, t);
    }
  }

  lemma OpenGateStaysOpen(c: Config, w: World, i: Input, w': World, k: string, t: int)
    requires Step(c, w, i, w') && !Gated(w.gates, k, t) && (ErrorIn(c, w, i, k) ==> i.now + 3600 * SECOND <= t)
    ensures !Gated(w'.gates, k, t)
  {
    StepCounts(c, w, i, w', k);
    StaysOpen(KeyAt(w, k), Event(TurnIn(c, w, i, k), i.now), t);
  }

  // ---- a panic ----

  lemma PanicCell(e: Env, gates: Gates, op: Op, before: Option<Record>)
    requires IsAttempted(e, gates, op) && op.kind != Delete && e.oracle(KeyOf(op)).Panics?
    ensures var cell := CellAfter(e, gates, op, before);
            cell.Some? && cell.value.failures == op.record.failures + 1 && cell.value.status == Failed
    ensures GateAfter(e, gates, op, None) == Some(e.now + Backoff(op.record.failures + 1))
  {
  }

  /** A pass in which k's upsert panics stores one more than the count the source's record carries, and sets the gate by
      it. That continues the stored count exactly when the two are equal; otherwise the backoff starts over from the
      source's, which is zero unless the source says so. */
  lemma PanicContinuesCountIff(c: Config, w: World, i: Input, w': World, k: string)
    requires Step(c, w, i, w') && i.end.Completed? && k in i.calls && k in Desired(c, w, i) && i.oracle(k).Panics?
    ensures var own := Desired(c, w, i)[k].failures;
            && k in w'.store && w'.store[k].failures == own + 1 && w'.store[k].status == Failed
            && k in w'.gates && w'.gates[k] == i.now + Backoff(own + 1)
            && (w'.store[k].failures == KeyAt(w, k).failures + 1 <==> own == KeyAt(w, k).failures)
  {
    OpAt(c, w, i, k);
    PassAt(c, w, i, w', k);
    PanicCell(EnvOf(c, w, i), w.gates, PassOps(c, w, i)[k], Get(w.store, k));
  }

  /** After three failures a panicking update leaves a count of one, and the shortest backoff. */
  lemma PanicRestartsCount(have: Record, want: Record) returns (c: Config, w: World, i: Input, w': World)
    requires have.status == Failed && have.failures == 3 && want == have.(failures := 0)
    ensures Step(c, w, i, w') && i.end.Completed? && i.calls == [RecordKey(have)]
    ensures w.store == map[RecordKey(have) := have] && Desired(c, w, i) == map[RecordKey(have) := want]
    ensures var k := RecordKey(have);
            k in w'.store && w'.store[k].failures == 1 && k in w'.gates && w'.gates[k] == i.now + 30 * SECOND
  {
    var u, k := have.upstream, RecordKey(have);
    assert PlainOp(Some(want), Some(have)) == Some(Op(Update, want, NoDrift));
    c, w, i, w' := SmallPass(u, k, Some(want), Some(have), map[], Panics("", None));
    PanicContinuesCountIff(c, w, i, w', k);
    assert Backoff(1) == 30 * SECOND;
  }
}
